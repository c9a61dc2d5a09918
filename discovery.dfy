/**
 * BLEDiscoveringActivity: the list of peripherals found by scanning, one
 * entry per address, and the parsing of a clicked entry back into the
 * device's name and address.
 */
module Discovery {
  import opened Wrappers
  import opened JavaText
  import JdkSort

  /** A scan result as stored in the list. */
  datatype BLEDevice = BLEDevice(name: string, address: string, rssi: int)

  /** BLEDevice.toString: the text of a list entry, the name and then the address around an '@'. */
  function EntryText(d: BLEDevice): (t: string)
    ensures |t| == |d.name| + 1 + |d.address|
    ensures StartsWith(t, d.name) && t[|d.name|] == '@'
    ensures t[|d.name| + 1..] == d.address
  {
    d.name + "@" + d.address
  }

  /**
   * The comparator onScanResult passes to sort: the larger of the two RSSI
   * values, not a sign. It is negative whenever both RSSIs are.
   */
  function RssiComparator(first: BLEDevice, second: BLEDevice): (c: int)
    ensures c == first.rssi || c == second.rssi
    ensures c >= first.rssi && c >= second.rssi
    ensures c < 0 <==> first.rssi < 0 && second.rssi < 0
  {
    if first.rssi > second.rssi then first.rssi else second.rssi
  }

  /** A MAC address "XX:XX:XX:XX:XX:XX" has 17 characters. */
  const ADDRESS_LENGTH := 17

  datatype Selection = Selection(name: string, address: string)

  /** The exception onItemClick throws. */
  datatype ClickFault = NameIndexOutOfBounds | AddressIndexOutOfBounds

  /**
   * onItemClick: the name is `text.split("@")[0]`, evaluated first, and the
   * address is `text.substring(text.length() - 17)`.
   */
  function ParseEntry(text: string): (r: Result<Selection, ClickFault>)
    ensures r == Err(NameIndexOutOfBounds) <==>
      |text| > 0 && forall k :: 0 <= k < |text| ==> text[k] == '@'
    ensures r == Err(AddressIndexOutOfBounds) <==>
      |text| < ADDRESS_LENGTH && r != Err(NameIndexOutOfBounds)
    ensures r.Ok? ==>
      && |r.value.address| == ADDRESS_LENGTH
      && text == text[..|text| - ADDRESS_LENGTH] + r.value.address
      && StartsWith(text, r.value.name) && '@' !in r.value.name
    ensures r.Ok? && |r.value.name| < |text| ==> text[|r.value.name|] == '@'
  {
    match FirstSplitPiece(text, '@')
    case None => Err(NameIndexOutOfBounds)
    case Some(name) =>
      match Substring(text, |text| - ADDRESS_LENGTH)
      case None => Err(AddressIndexOutOfBounds)
      case Some(address) => Ok(Selection(name, address))
  }

  /** Clicking an entry recovers the device it shows when the fields are well formed. */
  lemma ParseEntryRoundTrip(d: BLEDevice)
    requires |d.address| == ADDRESS_LENGTH
    requires '@' !in d.name && '@' !in d.address
    ensures ParseEntry(EntryText(d)) == Ok(Selection(d.name, d.address))
  {
    var text := EntryText(d);
    assert text == d.name + ['@'] + d.address;
    FirstSplitPieceOfJoin(d.name, '@', d.address, 0);
    assert text[|text| - ADDRESS_LENGTH..] == d.address;
  }

  /** A name containing '@' comes back cut at its first '@'. */
  lemma ParseEntryCutsName(d: BLEDevice)
    requires |d.address| == ADDRESS_LENGTH && '@' in d.name && '@' !in d.address
    ensures ParseEntry(EntryText(d)) == Ok(Selection(d.name[..IndexOf(d.name, '@')], d.address))
  {
    var text := EntryText(d);
    var i := IndexOf(d.name, '@');
    assert text[|text| - 1] == d.address[ADDRESS_LENGTH - 1];
    var r := ParseEntry(text);
    var name := r.value.name;
    assert text[..|d.name|] == d.name;
    assert text[i] == '@' && '@' !in name;
    assert forall k :: 0 <= k < i ==> text[k] == d.name[k] != '@';
    assert name == d.name[..i];
    assert r.value.address == text[|text| - ADDRESS_LENGTH..];
    assert text[|text| - ADDRESS_LENGTH..] == d.address;
  }

  predicate DistinctAddresses(s: seq<BLEDevice>)
  {
    forall i, j :: 0 <= i < j < |s| ==> s[i].address != s[j].address
  }

  predicate HasAddress(s: seq<BLEDevice>, address: string)
  {
    exists i :: 0 <= i < |s| && s[i].address == address
  }

  /** Removing one entry keeps the rest distinct, and none of them shares its address. */
  lemma DistinctRemove(b: seq<BLEDevice>, p: nat)
    requires DistinctAddresses(b) && p < |b|
    ensures DistinctAddresses(b[..p] + b[p + 1..])
    ensures forall y :: y in b[..p] + b[p + 1..] ==> y.address != b[p].address
  {
    var b' := b[..p] + b[p + 1..];
    forall q | 0 <= q < |b'| ensures b'[q] == b[if q < p then q else q + 1] {
    }
  }

  /** Taking a[0] off a and its copy b[p] off b keeps the two multisets equal. */
  lemma MultisetRemove(a: seq<BLEDevice>, b: seq<BLEDevice>, p: nat)
    requires multiset(a) == multiset(b) && |a| > 0 && p < |b| && b[p] == a[0]
    ensures multiset(a[1..]) == multiset(b[..p] + b[p + 1..])
  {
    var b' := b[..p] + b[p + 1..];
    assert b == b[..p] + [b[p]] + b[p + 1..];
    assert a == [a[0]] + a[1..];
    var mb := multiset(b[..p]) + multiset{b[p]} + multiset(b[p + 1..]);
    assert multiset(b) == mb;
    assert multiset(b') == multiset(b[..p]) + multiset(b[p + 1..]);
    assert multiset(a) == multiset{a[0]} + multiset(a[1..]);
    forall y ensures multiset(a[1..])[y] == multiset(b')[y] {
      assert multiset(a)[y] == multiset{a[0]}[y] + multiset(a[1..])[y];
      assert mb[y] == multiset(b[..p])[y] + multiset{b[p]}[y] + multiset(b[p + 1..])[y];
    }
  }

  /** Rearranging a list with distinct addresses keeps them distinct. */
  lemma {:induction false} PermutationKeepsDistinct(a: seq<BLEDevice>, b: seq<BLEDevice>)
    requires multiset(a) == multiset(b) && DistinctAddresses(b)
    ensures DistinctAddresses(a)
  {
    if a != [] {
      assert a[0] in multiset(b);
      var p :| 0 <= p < |b| && b[p] == a[0];
      var b' := b[..p] + b[p + 1..];
      MultisetRemove(a, b, p);
      DistinctRemove(b, p);
      PermutationKeepsDistinct(a[1..], b');
      forall k | 1 <= k < |a| ensures a[k].address != a[0].address {
        assert a[k] in multiset(a[1..]);
      }
    }
  }

  /** With the usual negative RSSI values every comparison answers "less": the sort reverses the list. */
  lemma NegativeRssiSortReverses(s: seq<BLEDevice>)
    requires forall i :: 0 <= i < |s| ==> s[i].rssi < 0
    ensures JdkSort.Sort(s, RssiComparator) == JdkSort.Reverse(s)
  {
    JdkSort.AlwaysLessReverses(s, RssiComparator);
  }

  /** The adapter's list of devices found so far. */
  class ScanList {
    var entries: seq<BLEDevice>

    ghost predicate Valid()
      reads this
    {
      DistinctAddresses(entries)
    }

    constructor ()
      ensures Valid() && entries == []
    {
      entries := [];
    }

    /**
     * onScanResult: a device whose address is already listed is ignored
     * (its first-seen name and RSSI stay); a new one is added and the list
     * is sorted with RssiComparator.
     */
    method OnScanResult(name: string, address: string, rssi: int)
      requires Valid()
      modifies this
      ensures Valid()
      ensures HasAddress(old(entries), address) ==> entries == old(entries)
      ensures !HasAddress(old(entries), address) ==>
        && entries == JdkSort.Sort(old(entries) + [BLEDevice(name, address, rssi)], RssiComparator)
        && |entries| == |old(entries)| + 1
        && multiset(entries) == multiset(old(entries)) + multiset{BLEDevice(name, address, rssi)}
    {
      var device := BLEDevice(name, address, rssi);
      for i := 0 to |entries|
        invariant forall j :: 0 <= j < i ==> entries[j].address != address
      {
        if entries[i].address == address {
          return;
        }
      }
      var added := entries + [device];
      assert DistinctAddresses(added);
      var sorted := JdkSort.Sort(added, RssiComparator);
      JdkSort.SortPermutes(added, RssiComparator);
      PermutationKeepsDistinct(sorted, added);
      entries := sorted;
    }
  }

  /**
   * Results for AA:01 (RSSI -40), AA:02 (-70) and AA:01 again (-35) leave
   * two entries; AA:01 keeps its first RSSI, and the sort puts it last.
   */
  method ScanScenario() returns (entries: seq<BLEDevice>)
    ensures entries == [BLEDevice("B", "AA:02", -70), BLEDevice("A", "AA:01", -40)]
  {
    var list := new ScanList();
    list.OnScanResult("A", "AA:01", -40);
    assert list.entries == [BLEDevice("A", "AA:01", -40)];
    list.OnScanResult("B", "AA:02", -70);
    NegativeRssiSortReverses([BLEDevice("A", "AA:01", -40), BLEDevice("B", "AA:02", -70)]);
    assert list.entries == [BLEDevice("B", "AA:02", -70), BLEDevice("A", "AA:01", -40)];
    assert list.entries[1].address == "AA:01";
    list.OnScanResult("A", "AA:01", -35);
    entries := list.entries;
  }
}
