/**
 * Device-identifier allocation of `POST /devices`: the local `pad` helper and
 * the computation of the next id from the last device the registry lists.
 * JavaScript numbers are modelled as unbounded naturals; parsing is exact.
 */
module DeviceId {
  import opened Wrappers

  /** The id given to the first device when the registry lists none. */
  const Seed: string := "Mobile00000001"

  /** The width the counter is padded to, whatever its previous width. */
  const CounterWidth: nat := 8

  /** `\d`: an ASCII decimal digit. */
  predicate IsDigit(c: char) {
    '0' <= c <= '9'
  }

  predicate AllDigits(s: string) {
    forall i :: 0 <= i < |s| ==> IsDigit(s[i])
  }

  function DigitChar(d: nat): (c: char)
    requires d < 10
    ensures IsDigit(c) && c as int - '0' as int == d
  {
    ('0' as int + d) as char
  }

  function DigitValue(c: char): nat
    requires IsDigit(c)
  {
    c as int - '0' as int
  }

  function Max(a: nat, b: nat): nat {
    if a >= b then a else b
  }

  /** `n + ''` for a non-negative integer: its decimal text without leading zeros. */
  function NatToDecimal(n: nat): (s: string)
    ensures |s| >= 1 && AllDigits(s)
    ensures |s| > 1 ==> s[0] != '0'
    decreases n
  {
    if n < 10 then [DigitChar(n)] else NatToDecimal(n / 10) + [DigitChar(n % 10)]
  }

  /** `parseInt` of a string of decimal digits (leading zeros allowed). */
  function DecimalValue(s: string): nat
    requires AllDigits(s)
    decreases |s|
  {
    if s == [] then 0 else 10 * DecimalValue(s[..|s| - 1]) + DigitValue(s[|s| - 1])
  }

  /** Parsing the printed form of a number gives the number back. */
  lemma {:induction false} DecimalRoundTrip(n: nat)
    ensures DecimalValue(NatToDecimal(n)) == n
    decreases n
  {
    var s := NatToDecimal(n);
    if n >= 10 {
      DecimalRoundTrip(n / 10);
      assert s[..|s| - 1] == NatToDecimal(n / 10);
    }
  }

  /** `new Array(k + 1).join('0')`: k zeros. */
  function Zeros(k: nat): (z: string)
    ensures |z| == k && forall i :: 0 <= i < k ==> z[i] == '0'
  {
    if k == 0 then [] else Zeros(k - 1) + ['0']
  }

  /** Leading zeros do not change the parsed value. */
  lemma {:induction false} LeadingZerosValue(k: nat, s: string)
    requires AllDigits(s)
    ensures AllDigits(Zeros(k) + s) && DecimalValue(Zeros(k) + s) == DecimalValue(s)
    decreases |s|, k
  {
    var z := Zeros(k);
    if s == [] {
      assert z + s == z;
      if k > 0 {
        assert z[..k - 1] == Zeros(k - 1);
        LeadingZerosValue(k - 1, []);
        assert Zeros(k - 1) + [] == Zeros(k - 1);
      }
    } else {
      var t := z + s;
      assert t[..|t| - 1] == z + s[..|s| - 1];
      LeadingZerosValue(k, s[..|s| - 1]);
    }
  }

  /**
   * `pad(n, width)`: the decimal text of n, left-filled with '0' up to
   * `width` characters; a longer text is returned whole, never truncated.
   */
  function Pad(n: nat, width: nat): (r: string)
    ensures |r| == Max(width, |NatToDecimal(n)|)
    ensures AllDigits(r) && DecimalValue(r) == n
    ensures r[|r| - |NatToDecimal(n)|..] == NatToDecimal(n)
    ensures forall i :: 0 <= i < |r| - |NatToDecimal(n)| ==> r[i] == '0'
  {
    var s := NatToDecimal(n);
    DecimalRoundTrip(n);
    if |s| >= width then s
    else
      LeadingZerosValue(width - |s|, s);
      assert (Zeros(width - |s|) + s)[width - |s|..] == s;
      Zeros(width - |s|) + s
  }

  /** `/\d+$/` matches at position j: s[j..] is a non-empty run of digits. */
  ghost predicate DigitsToEndAt(s: string, j: nat) {
    j < |s| && AllDigits(s[j..])
  }

  /**
   * Where the trailing run of digits of s starts (|s| when s does not end in
   * a digit). This is the leftmost position where `/\d+$/` matches.
   */
  function TrailingDigitsStart(s: string): (i: nat)
    ensures i <= |s| && AllDigits(s[i..])
    ensures i > 0 ==> !IsDigit(s[i - 1])
    decreases |s|
  {
    if s == [] || !IsDigit(s[|s| - 1]) then |s|
    else
      var t := s[..|s| - 1];
      var i := TrailingDigitsStart(t);
      assert s[i..] == t[i..] + [s[|s| - 1]];
      assert i > 0 ==> s[i - 1] == t[i - 1];
      i
  }

  /** `lastDeviceId.match(/\d+$/)` finds its match exactly at TrailingDigitsStart, and fails when that is |s|. */
  lemma TrailingDigitsIsLeftmostMatch(s: string)
    ensures var i := TrailingDigitsStart(s);
      (i < |s| ==> DigitsToEndAt(s, i))
      && forall j :: 0 <= j < |s| && j < i ==> !DigitsToEndAt(s, j)
  {
    var i := TrailingDigitsStart(s);
    forall j | 0 <= j < |s| && j < i ensures !DigitsToEndAt(s, j) {
      assert s[j..][i - 1 - j] == s[i - 1];
    }
  }

  /** The alphabetic part of an id: everything before its trailing digits. */
  function Prefix(id: string): string {
    id[..TrailingDigitsStart(id)]
  }

  /** The counter an id encodes in its trailing digits, if it has any. */
  function Counter(id: string): Option<nat> {
    var i := TrailingDigitsStart(id);
    if i == |id| then None else Some(DecimalValue(id[i..]))
  }

  /**
   * The id that follows `last`: its trailing digits replaced by
   * `pad(number + 1, 8)`. An id without trailing digits is returned
   * unchanged (`replace` finds nothing to replace).
   */
  function Successor(last: string): string {
    var i := TrailingDigitsStart(last);
    if i == |last| then last
    else last[..i] + Pad(DecimalValue(last[i..]) + 1, CounterWidth)
  }

  /**
   * The id for the next device, from the ids the registry lists in its own
   * order: the seed for an empty list, otherwise the successor of the last
   * listed id (the ones before it play no part).
   */
  function NextDeviceId(ids: seq<string>): (r: string)
    ensures |ids| == 0 ==> r == Seed && Prefix(r) == "Mobile" && Counter(r) == Some(1)
    ensures |ids| > 0 && Counter(ids[|ids| - 1]).None? ==> r == ids[|ids| - 1]
    ensures |ids| > 0 && Counter(ids[|ids| - 1]).Some? ==>
      var n := Counter(ids[|ids| - 1]).value;
      && Prefix(r) == Prefix(ids[|ids| - 1])
      && Counter(r) == Some(n + 1)
      && r == Prefix(r) + Pad(n + 1, CounterWidth)
  {
    if |ids| == 0 then
      SeedCounter();
      Seed
    else
      var last := ids[|ids| - 1];
      if Counter(last).Some? then
        SuccessorAdvances(last, Counter(last).value);
        Successor(last)
      else
        Successor(last)
  }

  /** The id after a freshly listed `id` advances that id's counter. */
  lemma NextAfterAppend(ids: seq<string>, id: string, n: nat)
    requires Counter(id) == Some(n)
    ensures Counter(NextDeviceId(ids + [id])) == Some(n + 1)
  {
    var all := ids + [id];
    assert all[|all| - 1] == id;
    assert NextDeviceId(all) == Successor(id);
    SuccessorAdvances(id, n);
  }

  /** Appending digits to a prefix that does not end in a digit puts the trailing run exactly there. */
  lemma {:induction false} TrailingDigitsOfJoin(p: string, d: string)
    requires AllDigits(d) && d != []
    requires p == [] || !IsDigit(p[|p| - 1])
    ensures TrailingDigitsStart(p + d) == |p|
    decreases |d|
  {
    var s := p + d;
    assert s[..|s| - 1] == p + d[..|d| - 1];
    if |d| > 1 {
      TrailingDigitsOfJoin(p, d[..|d| - 1]);
    } else {
      assert s[..|s| - 1] == p;
    }
  }

  /** The seed has prefix "Mobile" and counter 1. */
  lemma SeedCounter()
    ensures Prefix(Seed) == "Mobile" && Counter(Seed) == Some(1)
  {
    assert Seed == "Mobile" + "00000001";
    TrailingDigitsOfJoin("Mobile", "00000001");
    assert Seed[6..] == Zeros(7) + "1";
    LeadingZerosValue(7, "1");
  }

  lemma SuccessorAdvances(last: string, n: nat)
    requires Counter(last) == Some(n)
    ensures var r := Successor(last);
      Prefix(r) == Prefix(last) && Counter(r) == Some(n + 1)
      && r == Prefix(last) + Pad(n + 1, CounterWidth)
  {
    var i := TrailingDigitsStart(last);
    var p := last[..i];
    assert p == [] || p[|p| - 1] == last[i - 1];
    SuccessorIsJoin(last, p, n);
    JoinCounter(p, Pad(n + 1, CounterWidth), n + 1);
  }

  lemma SuccessorIsJoin(last: string, p: string, n: nat)
    requires Counter(last) == Some(n) && p == Prefix(last)
    ensures Successor(last) == p + Pad(n + 1, CounterWidth)
  {
    var i := TrailingDigitsStart(last);
    assert DecimalValue(last[i..]) == n;
  }

  /** A digit run appended to a prefix that does not end in a digit is that id's counter. */
  lemma JoinCounter(p: string, d: string, m: nat)
    requires AllDigits(d) && d != [] && DecimalValue(d) == m
    requires p == [] || !IsDigit(p[|p| - 1])
    ensures Prefix(p + d) == p && Counter(p + d) == Some(m)
  {
    TrailingDigitsOfJoin(p, d);
    assert (p + d)[..|p|] == p;
    assert (p + d)[|p|..] == d;
  }

  /** `Mobile00000007` is followed by `Mobile00000008`. */
  lemma ExampleSevenToEight()
    ensures NextDeviceId(["Mobile00000007"]) == "Mobile00000008"
  {
    SevenFrom("Mobile00000007");
  }

  lemma SevenFrom(last: string)
    requires last == "Mobile" + "00000007"
    ensures NextDeviceId([last]) == "Mobile00000008"
  {
    SevenCounter(last);
    PaddedEight();
    var r := NextDeviceId([last]);
    assert r == Prefix(r) + Pad(8, CounterWidth);
  }

  lemma SevenCounter(last: string)
    requires last == "Mobile" + "00000007"
    ensures Counter(last) == Some(7) && Prefix(last) == "Mobile"
  {
    TrailingDigitsOfJoin("Mobile", "00000007");
    assert last[6..] == Zeros(7) + "7" && last[..6] == "Mobile";
    LeadingZerosValue(7, "7");
  }

  lemma PaddedEight()
    ensures Pad(8, 8) == "00000008"
  {
    assert Pad(8, 8) == Zeros(7) + "8";
  }

  /** A narrower counter is widened to 8 digits: `Mobile001` is followed by `Mobile00000002`. */
  lemma ExampleWidensToEight()
    ensures NextDeviceId(["Mobile001"]) == "Mobile00000002"
  {
    WidenFrom("Mobile001");
  }

  lemma WidenFrom(last: string)
    requires last == "Mobile" + "001"
    ensures NextDeviceId([last]) == "Mobile00000002"
  {
    assert last[6..] == Zeros(2) + "1" && last[..6] == "Mobile";
    LeadingZerosValue(2, "1");
    JoinCounter("Mobile", Zeros(2) + "1", 1);
    assert last == "Mobile" + (Zeros(2) + "1");
    PaddedTwo();
    var r := NextDeviceId([last]);
    assert r == Prefix(r) + Pad(2, CounterWidth);
  }

  lemma PaddedTwo()
    ensures Pad(2, 8) == "00000002"
  {
    assert Pad(2, 8) == Zeros(7) + "2";
  }

  /** The counter is never truncated: `Mobile99999999` is followed by the 9-digit `Mobile100000000`. */
  lemma ExampleOverflowGrows()
    ensures NextDeviceId(["Mobile99999999"]) == "Mobile100000000"
  {
    OverflowFrom("Mobile99999999");
  }

  lemma OverflowFrom(last: string)
    requires last == "Mobile" + "99999999"
    ensures NextDeviceId([last]) == "Mobile100000000"
  {
    NinesCounter(last);
    HundredMillion();
    var r := NextDeviceId([last]);
    assert r == Prefix(r) + Pad(100000000, 8);
  }

  lemma NinesCounter(last: string)
    requires last == "Mobile" + "99999999"
    ensures Counter(last) == Some(99999999) && Prefix(last) == "Mobile"
  {
    TrailingDigitsOfJoin("Mobile", "99999999");
    assert last[6..] == "99999999";
    assert last[..6] == "Mobile";
    EightNines();
    DecimalRoundTrip(99999999);
  }

  lemma EightNines()
    ensures NatToDecimal(99999999) == "99999999"
  {
    assert NatToDecimal(9) == "9";
    assert NatToDecimal(99) == NatToDecimal(9) + "9" == "99";
    assert NatToDecimal(999) == NatToDecimal(99) + "9" == "999";
    assert NatToDecimal(9999) == NatToDecimal(999) + "9" == "9999";
    assert NatToDecimal(99999) == NatToDecimal(9999) + "9" == "99999";
    assert NatToDecimal(999999) == NatToDecimal(99999) + "9" == "999999";
    assert NatToDecimal(9999999) == NatToDecimal(999999) + "9" == "9999999";
    assert NatToDecimal(99999999) == NatToDecimal(9999999) + "9" == "99999999";
  }

  lemma HundredMillion()
    ensures NatToDecimal(100000000) == "100000000"
  {
    assert NatToDecimal(1) == "1";
    assert NatToDecimal(10) == NatToDecimal(1) + "0" == "10";
    assert NatToDecimal(100) == NatToDecimal(10) + "0" == "100";
    assert NatToDecimal(1000) == NatToDecimal(100) + "0" == "1000";
    assert NatToDecimal(10000) == NatToDecimal(1000) + "0" == "10000";
    assert NatToDecimal(100000) == NatToDecimal(10000) + "0" == "100000";
    assert NatToDecimal(1000000) == NatToDecimal(100000) + "0" == "1000000";
    assert NatToDecimal(10000000) == NatToDecimal(1000000) + "0" == "10000000";
    assert NatToDecimal(100000000) == NatToDecimal(10000000) + "0" == "100000000";
  }

  /** The ids k allocations in a row produce, starting from an empty list of ids. */
  function Allocations(k: nat): (ids: seq<string>)
    ensures |ids| == k
  {
    if k == 0 then [] else var prior := Allocations(k - 1); prior + [NextDeviceId(prior)]
  }

  /** The j-th of those ids is "Mobile" followed by counter j + 1. */
  lemma {:induction false} AllocationsCount(k: nat)
    ensures forall j :: 0 <= j < k ==>
      Prefix(Allocations(k)[j]) == "Mobile" && Counter(Allocations(k)[j]) == Some(j + 1)
  {
    if k > 0 {
      AllocationsCount(k - 1);
      var prior := Allocations(k - 1);
      var next := NextDeviceId(prior);
      assert Allocations(k) == prior + [next];
      assert |prior| > 0 ==> prior[|prior| - 1] == Allocations(k - 1)[k - 2];
      assert Prefix(next) == "Mobile" && Counter(next) == Some(k);
      forall j | 0 <= j < k
        ensures Prefix(Allocations(k)[j]) == "Mobile" && Counter(Allocations(k)[j]) == Some(j + 1)
      {
        if j < k - 1 {
          assert Allocations(k)[j] == prior[j];
        } else {
          assert Allocations(k)[j] == next;
        }
      }
    }
  }

  /** No two of the first k allocations are equal. */
  lemma AllocationsDistinct(k: nat)
    ensures forall a, b :: 0 <= a < b < k ==> Allocations(k)[a] != Allocations(k)[b]
  {
    AllocationsCount(k);
  }
}
