/**
 * Labels shown on string channels: mapStringType, which turns the last segment of a Home
 * Connect key into words, and the washer's temperature and spin-speed mappers.
 */
module Labels {
  import opened Text

  /**
   * Where the split regular expression of mapStringType cuts `s`: before an upper-case letter
   * that does not follow an upper-case letter, or before an upper-case letter followed by a
   * lower-case one; never at the start.
   */
  predicate IsBoundary(s: string, i: nat)
    requires i < |s|
  {
    0 < i && IsUpper(s[i]) && (!IsUpper(s[i - 1]) || (i + 1 < |s| && IsLower(s[i + 1])))
  }

  /** The words of s[start..] when the current word began at `start` and positions before `i` are scanned. */
  function SplitFrom(s: string, start: nat, i: nat): seq<string>
    requires start < i <= |s|
    decreases |s| - i
  {
    if i == |s| then [s[start..]]
    else if IsBoundary(s, i) then [s[start..i]] + SplitFrom(s, i, i + 1)
    else SplitFrom(s, start, i + 1)
  }

  /** String.split with the boundary regular expression; the empty string splits into one empty word. */
  function Split(s: string): seq<string> {
    if |s| == 0 then [""] else SplitFrom(s, 0, 1)
  }

  /** What the StringBuilder holds after appending " " and each word. */
  function Join(words: seq<string>): string {
    if |words| == 0 then "" else Join(words[..|words| - 1]) + " " + words[|words| - 1]
  }

  /** Reference definition: s[i..] with one space inserted before every boundary. */
  function Spaced(s: string, i: nat): string
    requires i <= |s|
    decreases |s| - i
  {
    if i == |s| then ""
    else (if IsBoundary(s, i) then " " else "") + [s[i]] + Spaced(s, i + 1)
  }

  function InsertSpaces(s: string): string {
    Spaced(s, 0)
  }

  /** The label of a key: unchanged unless a '.' sits after the first character; else its last segment, spaced and trimmed. */
  function Label(key: string): (r: string)
    ensures LastIndexOf(key, '.') <= 0 ==> r == key
    ensures LastIndexOf(key, '.') > 0 ==> r == Trim(InsertSpaces(key[LastIndexOf(key, '.') + 1..]))
  {
    var index := LastIndexOf(key, '.');
    if index > 0 then Trim(InsertSpaces(key[index + 1..])) else key
  }

  lemma {:induction false} JoinAppend(a: seq<string>, b: seq<string>)
    ensures Join(a + b) == Join(a) + Join(b)
    decreases |b|
  {
    if |b| == 0 {
      assert a + b == a;
    } else {
      assert (a + b)[..|a + b| - 1] == a + b[..|b| - 1];
      JoinAppend(a, b[..|b| - 1]);
    }
  }

  lemma {:induction false} JoinSplitFrom(s: string, start: nat, i: nat)
    requires start < i <= |s|
    ensures Join(SplitFrom(s, start, i)) == " " + s[start..i] + Spaced(s, i)
    decreases |s| - i
  {
    if i == |s| {
      assert Join([s[start..]]) == Join([]) + " " + s[start..];
    } else if IsBoundary(s, i) {
      var word, rest := s[start..i], SplitFrom(s, i, i + 1);
      JoinSplitFrom(s, i, i + 1);
      JoinAppend([word], rest);
      assert Join([word]) == Join([]) + " " + word;
      assert s[i..i + 1] == [s[i]];
      assert Spaced(s, i) == " " + [s[i]] + Spaced(s, i + 1);
      calc {
        Join(SplitFrom(s, start, i));
        Join([word] + rest);
        (" " + word) + (" " + [s[i]] + Spaced(s, i + 1));
      }
    } else {
      JoinSplitFrom(s, start, i + 1);
      assert s[start..i + 1] == s[start..i] + [s[i]];
      assert Spaced(s, i) == [s[i]] + Spaced(s, i + 1);
      calc {
        Join(SplitFrom(s, start, i));
        " " + (s[start..i] + [s[i]]) + Spaced(s, i + 1);
        " " + s[start..i] + ([s[i]] + Spaced(s, i + 1));
      }
    }
  }

  /** Splitting at the boundaries and joining with leading spaces is inserting a space before each boundary. */
  lemma JoinSplit(s: string)
    ensures Join(Split(s)) == " " + InsertSpaces(s)
  {
    if |s| == 0 {
      assert Join([""]) == Join([]) + " " + "";
    } else {
      JoinSplitFrom(s, 0, 1);
      assert s[0..1] == [s[0]];
    }
  }

  lemma TrimLeadingSpace(s: string)
    ensures Trim(" " + s) == Trim(s)
  {
    assert (" " + s)[1..] == s;
  }

  /** Removes every space. */
  function Unspaced(s: string): string {
    if |s| == 0 then "" else (if s[0] == ' ' then "" else [s[0]]) + Unspaced(s[1..])
  }

  lemma {:induction false} UnspacedAppend(a: string, b: string)
    ensures Unspaced(a + b) == Unspaced(a) + Unspaced(b)
    decreases |a|
  {
    if |a| > 0 {
      assert (a + b)[1..] == a[1..] + b;
      UnspacedAppend(a[1..], b);
    } else {
      assert a + b == b;
    }
  }

  /** Spacing adds nothing but spaces: without its spaces the label text is the segment without its spaces. */
  lemma {:induction false} SpacedOnlyAddsSpaces(s: string, i: nat)
    requires i <= |s|
    ensures Unspaced(Spaced(s, i)) == Unspaced(s[i..])
    decreases |s| - i
  {
    if i < |s| {
      SpacedOnlyAddsSpaces(s, i + 1);
      var gap := if IsBoundary(s, i) then " " else "";
      UnspacedAppend(gap + [s[i]], Spaced(s, i + 1));
      UnspacedAppend(gap, [s[i]]);
      assert s[i..] == [s[i]] + s[i + 1..];
      UnspacedAppend([s[i]], s[i + 1..]);
    }
  }

  /** Only the last segment matters: keys that share it and have a '.' after their first character share their label. */
  lemma LabelOfLastSegment(p: string, q: string, segment: string)
    requires |p| > 0 && |q| > 0 && '.' !in segment
    ensures Label(p + "." + segment) == Label(q + "." + segment) == Trim(InsertSpaces(segment))
  {
    LastSegment(p, segment);
    LastSegment(q, segment);
  }

  lemma LastSegment(p: string, segment: string)
    requires |p| > 0 && '.' !in segment
    ensures LastIndexOf(p + "." + segment, '.') == |p|
    ensures (p + "." + segment)[|p| + 1..] == segment
  {
    var key := p + "." + segment;
    assert key[|p|] == '.';
    forall j | |p| < j < |key|
      ensures key[j] != '.'
    {
      assert key[j] == segment[j - |p| - 1];
    }
  }

  /**
   * mapStringType: the last segment after a '.' at index > 0 is split at the boundaries, each
   * word appended after a space, and the result trimmed; any other key comes back unchanged.
   */
  method MapStringType(key: string) returns (r: string)
    ensures r == Label(key)
  {
    var index := LastIndexOf(key, '.');
    if index > 0 && |key| > index {
      var sub := key[index + 1..];
      var words := Split(sub);
      var sb := "";
      var k := 0;
      while k < |words|
        invariant 0 <= k <= |words|
        invariant sb == Join(words[..k])
      {
        sb := sb + " " + words[k];
        assert words[..k + 1][..k] == words[..k];
        k := k + 1;
      }
      assert words[..k] == words;
      JoinSplit(sub);
      TrimLeadingSpace(InsertSpaces(sub));
      return Trim(sb);
    }
    return key;
  }

  /** A stretch without boundaries is copied as it is. */
  lemma {:induction false} SpacedPlain(s: string, i: nat, j: nat)
    requires i <= j <= |s|
    requires forall k :: i <= k < j ==> !IsBoundary(s, k)
    ensures Spaced(s, i) == s[i..j] + Spaced(s, j)
    decreases j - i
  {
    if i < j {
      assert !IsBoundary(s, i);
      assert Spaced(s, i) == "" + [s[i]] + Spaced(s, i + 1);
      assert "" + [s[i]] == [s[i]];
      SpacedPlain(s, i + 1, j);
      assert s[i..j] == [s[i]] + s[i + 1..j];
    }
  }

  /** "Dishcare.Dishwasher.Program.Eco50" is labelled "Eco50". */
  lemma LabelEco50()
    ensures Label("Dishcare.Dishwasher.Program.Eco50") == "Eco50"
  {
    assert "Dishcare.Dishwasher.Program.Eco50" == "Dishcare.Dishwasher.Program" + "." + "Eco50";
    LabelOfLastSegment("Dishcare.Dishwasher.Program", "x", "Eco50");
    SegmentEco50();
  }

  lemma SegmentEco50()
    ensures Trim(InsertSpaces("Eco50")) == "Eco50"
  {
    var segment := "Eco50";
    assert !IsBoundary(segment, 0) && !IsBoundary(segment, 1) && !IsBoundary(segment, 2);
    assert !IsBoundary(segment, 3) && !IsBoundary(segment, 4);
    SpacedPlain(segment, 0, 5);
    assert segment[0..5] == segment;
    assert TrimStart(segment) == segment;
    assert TrimEnd(segment) == segment;
  }

  /** "BSH.Common.EnumType.OperationState.DelayedStart" is labelled "Delayed Start". */
  lemma LabelDelayedStart()
    ensures Label("BSH.Common.EnumType.OperationState.DelayedStart") == "Delayed Start"
  {
    assert "BSH.Common.EnumType.OperationState.DelayedStart" == "BSH.Common.EnumType.OperationState" + "." + "DelayedStart";
    LabelOfLastSegment("BSH.Common.EnumType.OperationState", "x", "DelayedStart");
    SegmentDelayedStart();
  }

  lemma SegmentDelayedStart()
    ensures Trim(InsertSpaces("DelayedStart")) == "Delayed Start"
  {
    var spaced := "Delayed Start";
    SpacedDelayedStart();
    assert TrimStart(spaced) == spaced;
    assert TrimEnd(spaced) == spaced;
  }

  /** The one boundary of "DelayedStart" is before the 'S'. */
  lemma SpacedDelayedStart()
    ensures InsertSpaces("DelayedStart") == "Delayed Start"
  {
    var segment := "DelayedStart";
    assert !IsBoundary(segment, 8) && !IsBoundary(segment, 9) && !IsBoundary(segment, 10) && !IsBoundary(segment, 11);
    SpacedPlain(segment, 8, 12);
    assert segment[8..12] == "tart";
    assert Spaced(segment, 8) == "tart";
    assert IsBoundary(segment, 7);
    assert Spaced(segment, 7) == " Start";
    assert !IsBoundary(segment, 0) && !IsBoundary(segment, 1) && !IsBoundary(segment, 2) && !IsBoundary(segment, 3);
    assert !IsBoundary(segment, 4) && !IsBoundary(segment, 5) && !IsBoundary(segment, 6);
    SpacedPlain(segment, 0, 7);
    assert segment[0..7] == "Delayed";
    assert Spaced(segment, 0) == "Delayed" + " Start";
  }

  const TEMPERATURE_GC := "LaundryCare.Washer.EnumType.Temperature.GC"
  const TEMPERATURE_UL := "LaundryCare.Washer.EnumType.Temperature.Ul"
  const SPIN_SPEED_RPM := "LaundryCare.Washer.EnumType.SpinSpeed.RPM"
  const SPIN_SPEED_UL := "LaundryCare.Washer.EnumType.SpinSpeed.Ul"
  const DEGREES_CELSIUS := "\U{00B0}C"

  /** mapWasherTemperature: degrees Celsius, a named temperature, or the generic label. */
  function WasherTemperature(value: string): (r: string)
    ensures StartsWith(value, TEMPERATURE_GC) ==>
      r == RemoveAll(value[|TEMPERATURE_GC|..], TEMPERATURE_GC) + DEGREES_CELSIUS &&
      |r| <= |value| - |TEMPERATURE_GC| + |DEGREES_CELSIUS|
    ensures !StartsWith(value, TEMPERATURE_GC) && StartsWith(value, TEMPERATURE_UL) ==>
      r == Label(RemoveAll(value[|TEMPERATURE_UL|..], TEMPERATURE_UL))
    ensures !StartsWith(value, TEMPERATURE_GC) && !StartsWith(value, TEMPERATURE_UL) ==> r == Label(value)
  {
    if StartsWith(value, TEMPERATURE_GC) then
      RemoveAllPrefix(value, TEMPERATURE_GC);
      RemoveAll(value, TEMPERATURE_GC) + DEGREES_CELSIUS
    else if StartsWith(value, TEMPERATURE_UL) then
      RemoveAllPrefix(value, TEMPERATURE_UL);
      Label(RemoveAll(value, TEMPERATURE_UL))
    else Label(value)
  }

  /** mapWasherSpinSpeed: the text after either spin-speed prefix, or the generic label. */
  function WasherSpinSpeed(value: string): (r: string)
    ensures StartsWith(value, SPIN_SPEED_RPM) ==>
      r == RemoveAll(value[|SPIN_SPEED_RPM|..], SPIN_SPEED_RPM) && |r| <= |value| - |SPIN_SPEED_RPM|
    ensures !StartsWith(value, SPIN_SPEED_RPM) && StartsWith(value, SPIN_SPEED_UL) ==>
      r == RemoveAll(value[|SPIN_SPEED_UL|..], SPIN_SPEED_UL) && |r| <= |value| - |SPIN_SPEED_UL|
    ensures !StartsWith(value, SPIN_SPEED_RPM) && !StartsWith(value, SPIN_SPEED_UL) ==> r == Label(value)
  {
    if StartsWith(value, SPIN_SPEED_RPM) then
      RemoveAllPrefix(value, SPIN_SPEED_RPM);
      RemoveAll(value, SPIN_SPEED_RPM)
    else if StartsWith(value, SPIN_SPEED_UL) then
      RemoveAllPrefix(value, SPIN_SPEED_UL);
      RemoveAll(value, SPIN_SPEED_UL)
    else Label(value)
  }

  /** A Celsius temperature value is its number followed by the degree sign. */
  lemma WasherTemperatureCelsius(rest: string)
    requires !Occurs(TEMPERATURE_GC, rest)
    ensures WasherTemperature(TEMPERATURE_GC + rest) == rest + DEGREES_CELSIUS
  {
    var value := TEMPERATURE_GC + rest;
    assert value[..|TEMPERATURE_GC|] == TEMPERATURE_GC;
    RemoveAllPrefix(value, TEMPERATURE_GC);
    assert value[|TEMPERATURE_GC|..] == rest;
    RemoveAllAbsent(rest, TEMPERATURE_GC);
  }

  /** A named temperature is the label of the text after the prefix. */
  lemma WasherTemperatureNamed(rest: string)
    requires !Occurs(TEMPERATURE_UL, rest)
    ensures WasherTemperature(TEMPERATURE_UL + rest) == Label(rest)
  {
    var value := TEMPERATURE_UL + rest;
    assert !StartsWith(value, TEMPERATURE_GC) by {
      assert value[|TEMPERATURE_UL| - 2] != TEMPERATURE_GC[|TEMPERATURE_UL| - 2];
    }
    assert value[..|TEMPERATURE_UL|] == TEMPERATURE_UL;
    RemoveAllPrefix(value, TEMPERATURE_UL);
    assert value[|TEMPERATURE_UL|..] == rest;
    RemoveAllAbsent(rest, TEMPERATURE_UL);
  }

  /** Both spin-speed prefixes leave the text after them verbatim. */
  lemma WasherSpinSpeedVerbatim(prefix: string, rest: string)
    requires prefix == SPIN_SPEED_RPM || prefix == SPIN_SPEED_UL
    requires !Occurs(prefix, rest)
    ensures WasherSpinSpeed(prefix + rest) == rest
  {
    var value := prefix + rest;
    assert value[..|prefix|] == prefix;
    assert value[|prefix|..] == rest;
    if prefix == SPIN_SPEED_RPM {
      RemoveAllPrefix(value, prefix);
      RemoveAllAbsent(rest, prefix);
    } else {
      assert !StartsWith(value, SPIN_SPEED_RPM) by {
        assert value[|SPIN_SPEED_UL| - 2] != SPIN_SPEED_RPM[|SPIN_SPEED_UL| - 2];
      }
      RemoveAllPrefix(value, prefix);
      RemoveAllAbsent(rest, prefix);
    }
  }
}
