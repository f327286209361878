/** `parseDurationSeconds`, shared verbatim by both revisions of the slop filter:
    a duration "SS", "MM:SS" or "HH:MM:SS" becomes a number of seconds. */
module Duration {
  import opened Js
  import Strings

  function Pow60(k: nat): (p: nat)
    ensures p >= 1
  {
    if k == 0 then 1 else 60 * Pow60(k - 1)
  }

  /** Σ parseInt(segs[i]) · 60^(|segs| - 1 - i), NaN (None) as soon as one term is. */
  function SegmentSum(segs: seq<string>): Option<int>
    decreases |segs|
  {
    if segs == [] then Some(0)
    else Add(Scale(ParseInt(segs[0]), Pow60(|segs| - 1)), SegmentSum(segs[1..]))
  }

  /** The number of seconds a duration string denotes, NaN being None. */
  function Seconds(s: string): Option<int> {
    SegmentSum(Strings.Split(s, ':'))
  }

  /** The source's accumulating loop over the `:`-separated segments. */
  method ParseDurationSeconds(durationString: string) returns (seconds: Option<int>)
    ensures seconds == Seconds(durationString)
  {
    seconds := Some(0);
    var segments := Strings.Split(durationString, ':');
    var i := 0;
    while i < |segments|
      invariant 0 <= i <= |segments|
      invariant Add(seconds, SegmentSum(segments[i..])) == SegmentSum(segments)
    {
      assert segments[i..][1..] == segments[i + 1..];
      seconds := Add(seconds, Scale(ParseInt(segments[i]), Pow60(|segments| - i - 1)));
      i := i + 1;
    }
  }

  /** The sum is NaN exactly when some segment does not parse. */
  lemma {:induction false} NaNIffSomeSegmentNaN(segs: seq<string>)
    ensures SegmentSum(segs).None? <==> exists i :: 0 <= i < |segs| && ParseInt(segs[i]).None?
    decreases |segs|
  {
    if segs != [] {
      NaNIffSomeSegmentNaN(segs[1..]);
      if exists i :: 0 <= i < |segs[1..]| && ParseInt(segs[1..][i]).None? {
        var i :| 0 <= i < |segs[1..]| && ParseInt(segs[1..][i]).None?;
        assert ParseInt(segs[i + 1]).None?;
      }
      if exists i :: 0 <= i < |segs| && ParseInt(segs[i]).None? {
        var i :| 0 <= i < |segs| && ParseInt(segs[i]).None?;
        if i > 0 {
          assert ParseInt(segs[1..][i - 1]).None?;
        }
      }
    }
  }

  /** Appending a segment multiplies what came before by 60 and adds the new one,
      so "MM:SS" reads as minutes and seconds whatever the number of segments. */
  lemma {:induction false} SegmentSumAppend(segs: seq<string>, last: string)
    ensures SegmentSum(segs + [last]) == Add(Scale(SegmentSum(segs), 60), ParseInt(last))
    decreases |segs|
  {
    if segs == [] {
      assert [] + [last] == [last];
      assert SegmentSum([last]) == Add(Scale(ParseInt(last), 1), SegmentSum([]));
    } else {
      var whole := segs + [last];
      var k := |segs| - 1;
      assert whole[0] == segs[0] && whole[1..] == segs[1..] + [last];
      assert SegmentSum(whole) == Add(Scale(ParseInt(segs[0]), Pow60(k + 1)), SegmentSum(segs[1..] + [last]));
      SegmentSumAppend(segs[1..], last);
      var head, rest, tail := ParseInt(segs[0]), SegmentSum(segs[1..]), ParseInt(last);
      assert SegmentSum(segs) == Add(Scale(head, Pow60(k)), rest);
      if head.Some? && rest.Some? && tail.Some? {
        HornerStep(head.value, rest.value, tail.value, Pow60(k));
      }
    }
  }

  lemma HornerStep(a: int, b: int, c: int, p: int)
    ensures a * (60 * p) + (b * 60 + c) == (a * p + b) * 60 + c
  {
    assert a * (60 * p) == (a * p) * 60;
  }

  /** "H:M:S" is H·3600 + M·60 + S, NaN when any of the three is. */
  lemma ClockFormat(clock: string, h: string, m: string, s: string)
    requires ':' !in h && ':' !in m && ':' !in s
    requires clock == h + ":" + m + ":" + s
    ensures Seconds(clock) == Add(Add(Scale(ParseInt(h), 3600), Scale(ParseInt(m), 60)), ParseInt(s))
  {
    var parts := [h, m, s];
    Strings.SplitJoin(parts, ':');
    assert parts[1..] == [m, s];
    assert [m, s][1..] == [s];
    assert Strings.Join([m, s], ':') == m + [':'] + s;
    assert Strings.Join(parts, ':') == h + [':'] + (m + [':'] + s);
    assert clock == h + [':'] + (m + [':'] + s);
    assert [s][1..] == [];
    assert Pow60(0) == 1;
    assert Pow60(1) == 60;
    assert Pow60(2) == 3600;
    assert Strings.Split(clock, ':') == parts;
    var x, y, z := ParseInt(h), ParseInt(m), ParseInt(s);
    assert SegmentSum([s]) == Add(Scale(z, 1), Some(0));
    assert SegmentSum([m, s]) == Add(Scale(y, 60), SegmentSum([s]));
    assert SegmentSum(parts) == Add(Scale(x, 3600), SegmentSum([m, s]));
  }

  lemma NoColonInDigits(s: string)
    requires AllDigits(s)
    ensures ':' !in s
  {
    forall i | 0 <= i < |s| ensures s[i] != ':' {
      assert IsDigit(s[i]);
    }
  }

  /** A single decimal segment is a number of seconds. */
  lemma SecondsOnly(s: string)
    requires s != [] && AllDigits(s)
    ensures Seconds(s) == Some(DigitsValue(s))
  {
    NoColonInDigits(s);
    Strings.SplitJoin([s], ':');
    assert Strings.Join([s], ':') == s;
    ParseIntOfDigits(s);
    assert [s][1..] == [];
    assert Pow60(0) == 1;
    assert SegmentSum([s]) == Add(Scale(ParseInt(s), 1), SegmentSum([]));
  }

  lemma TwoDigits(ds: string, tens: nat, ones: nat)
    requires |ds| == 2 && tens < 10 && ones < 10
    requires ds[0] as int == '0' as int + tens && ds[1] as int == '0' as int + ones
    ensures AllDigits(ds) && DigitsValue(ds) == 10 * tens + ones
  {
    var first := ds[..1];
    assert first[..0] == [];
    assert DigitsValue(first) == 10 * DigitsValue(first[..0]) + (first[0] as int - '0' as int);
    assert DigitsValue(ds) == 10 * DigitsValue(first) + (ds[1] as int - '0' as int);
  }

  /** A two-digit segment parses to its value and holds no separator. */
  lemma TwoDigitSegment(ds: string, tens: nat, ones: nat)
    requires |ds| == 2 && tens < 10 && ones < 10
    requires ds[0] as int == '0' as int + tens && ds[1] as int == '0' as int + ones
    ensures ParseInt(ds) == Some(10 * tens + ones) && ':' !in ds
  {
    TwoDigits(ds, tens, ones);
    NoColonInDigits(ds);
    ParseIntOfDigits(ds);
  }

  /** "10:00:00" is 36000 seconds. */
  lemma TenHours()
    ensures Seconds("10:00:00") == Some(36000)
  {
    TwoDigitSegment("10", 1, 0);
    TwoDigitSegment("00", 0, 0);
    ClockFormat("10:00:00", "10", "00", "00");
  }

  /** "00:10:00" is 600 seconds. */
  lemma TenMinutes()
    ensures Seconds("00:10:00") == Some(600)
  {
    TwoDigitSegment("10", 1, 0);
    TwoDigitSegment("00", 0, 0);
    ClockFormat("00:10:00", "00", "10", "00");
  }

  /** "00:09:59" is 599 seconds. */
  lemma NineFiftyNine(clock: string)
    requires clock == "00:09:59"
    ensures Seconds(clock) == Some(599)
  {
    TwoDigitSegment("00", 0, 0);
    TwoDigitSegment("09", 0, 9);
    TwoDigitSegment("59", 5, 9);
    ClockFormat(clock, "00", "09", "59");
    assert Add(Scale(Some(0), 3600), Scale(Some(9), 60)) == Some(540);
    assert Add(Some(540), Some(59)) == Some(599);
  }

  /** "45" is 45 seconds. */
  lemma FortyFiveSeconds()
    ensures Seconds("45") == Some(45)
  {
    TwoDigits("45", 4, 5);
    SecondsOnly("45");
  }
}
