/**
 * The capability checks that both helpers' `init` run, in the same order:
 * a context is given, the Bluetooth adapter exists and is enabled, and the
 * device has the Bluetooth LE feature. The helpers differ only in the
 * message attached to each failure.
 */
module Capability {
  import opened Wrappers

  /** What the Android platform answers to each check. */
  datatype Platform = Platform(hasContext: bool, hasAdapter: bool, adapterEnabled: bool, hasLeFeature: bool)

  datatype Fault = NoContext | AdapterUnavailable | NoLeFeature

  /**
   * The first check that fails, or None when all pass: each fault is
   * reported exactly when its check fails and every earlier one passes.
   */
  function FirstFault(p: Platform): (r: Option<Fault>)
    ensures r == None <==>
      p.hasContext && p.hasAdapter && p.adapterEnabled && p.hasLeFeature
    ensures r == Some(NoContext) <==> !p.hasContext
    ensures r == Some(AdapterUnavailable) <==>
      p.hasContext && (!p.hasAdapter || !p.adapterEnabled)
    ensures r == Some(NoLeFeature) <==>
      p.hasContext && p.hasAdapter && p.adapterEnabled && !p.hasLeFeature
  {
    if !p.hasContext then Some(NoContext)
    else if !p.hasAdapter || !p.adapterEnabled then Some(AdapterUnavailable)
    else if !p.hasLeFeature then Some(NoLeFeature)
    else None
  }
}
