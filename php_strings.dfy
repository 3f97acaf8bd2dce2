/**
 * The few PHP string built-ins the layer relies on: truthiness of a string,
 * strpos/stripos, explode, and the decimal text of an integer as string
 * interpolation produces it.
 */
module PhpStrings {
  import opened Orm

  /** The strings PHP treats as false in a condition. */
  predicate Falsy(s: string) {
    s == "" || s == "0"
  }

  /** ASCII lower-casing, as stripos applies it to both arguments. */
  function LowerChar(c: char): char {
    if 'A' <= c <= 'Z' then (c as int + 32) as char else c
  }

  function Lower(s: string): string {
    seq(|s|, i requires 0 <= i < |s| => LowerChar(s[i]))
  }

  /** needle occurs in s starting at position i. */
  predicate OccursAt(s: string, needle: string, i: int) {
    0 <= i && i + |needle| <= |s| && s[i..i + |needle|] == needle
  }

  /** strpos(s, needle): the first position at which needle occurs, None for false. */
  function IndexOf(s: string, needle: string): (r: Option<nat>)
    ensures r.Some? ==> OccursAt(s, needle, r.value)
    ensures r.Some? ==> forall j :: 0 <= j < r.value ==> !OccursAt(s, needle, j)
    ensures r.None? ==> forall j :: !OccursAt(s, needle, j)
  {
    IndexOfFrom(s, needle, 0)
  }

  function IndexOfFrom(s: string, needle: string, from: nat): (r: Option<nat>)
    ensures r.Some? ==> from <= r.value && OccursAt(s, needle, r.value)
    ensures r.Some? ==> forall j :: from <= j < r.value ==> !OccursAt(s, needle, j)
    ensures r.None? ==> forall j :: from <= j ==> !OccursAt(s, needle, j)
    decreases |s| - from
  {
    if from + |needle| > |s| then None
    else if s[from..from + |needle|] == needle then Some(from)
    else IndexOfFrom(s, needle, from + 1)
  }

  /** stripos(s, needle) !== false */
  predicate ContainsIgnoringCase(s: string, needle: string)
    ensures ContainsIgnoringCase(s, needle) ==> |needle| <= |s|
    ensures (exists i :: OccursAt(s, needle, i)) ==> ContainsIgnoringCase(s, needle)
  {
    assert forall i :: OccursAt(s, needle, i) ==> OccursAt(Lower(s), Lower(needle), i) by {
      forall i | OccursAt(s, needle, i) ensures OccursAt(Lower(s), Lower(needle), i) {
        forall k | 0 <= k < |needle| ensures Lower(s)[i + k] == Lower(needle)[k] {
          assert s[i..i + |needle|][k] == s[i + k];
        }
      }
    }
    IndexOf(Lower(s), Lower(needle)).Some?
  }

  /** stripos finds needle exactly when some position of s matches it up to ASCII case. */
  lemma ContainsIgnoringCaseMeans(s: string, needle: string)
    ensures ContainsIgnoringCase(s, needle) <==> exists i :: OccursAt(Lower(s), Lower(needle), i)
  {
    var r := IndexOf(Lower(s), Lower(needle));
    if r.Some? {
      assert OccursAt(Lower(s), Lower(needle), r.value);
    }
  }

  /** implode(d, parts) */
  function Join(parts: seq<string>, d: char): string {
    if |parts| == 0 then ""
    else if |parts| == 1 then parts[0]
    else parts[0] + [d] + Join(parts[1..], d)
  }

  /** explode(d, s): the pieces of s between the delimiters, at least one. */
  function Split(s: string, d: char): (parts: seq<string>)
    ensures |parts| >= 1
    ensures forall i :: 0 <= i < |parts| ==> d !in parts[i]
    ensures Join(parts, d) == s
  {
    if s == [] then [""]
    else
      var rest := Split(s[1..], d);
      if s[0] == d then
        assert ([""] + rest)[1..] == rest;
        [""] + rest
      else
        var parts := [[s[0]] + rest[0]] + rest[1..];
        assert parts[1..] == rest[1..];
        parts
  }

  /** Splitting a join of delimiter-free pieces gives the pieces back. */
  lemma {:induction false} SplitJoin(parts: seq<string>, d: char)
    requires |parts| >= 1
    requires forall i :: 0 <= i < |parts| ==> d !in parts[i]
    ensures Split(Join(parts, d), d) == parts
    decreases |parts|, |parts[0]|
  {
    var p0 := parts[0];
    if p0 == [] {
      if |parts| == 1 {
      } else {
        var tail := parts[1..];
        SplitJoin(tail, d);
        assert Join(parts, d) == [d] + Join(tail, d);
        assert (d as char) in Join(parts, d);
        assert ([d] + Join(tail, d))[1..] == Join(tail, d);
      }
    } else {
      var shorter := [p0[1..]] + parts[1..];
      assert shorter[1..] == parts[1..];
      assert forall i :: 0 <= i < |shorter| ==> d !in shorter[i] by {
        forall i | 0 <= i < |shorter| ensures d !in shorter[i] {
          if i == 0 {
            assert forall c :: c in p0[1..] ==> c in p0;
          } else {
            assert shorter[i] == parts[i];
          }
        }
      }
      SplitJoin(shorter, d);
      assert Join(parts, d) == [p0[0]] + Join(shorter, d) by {
        if |parts| == 1 {
          assert p0 == [p0[0]] + p0[1..];
        } else {
          assert p0 == [p0[0]] + p0[1..];
          assert Join(parts, d) == p0 + [d] + Join(parts[1..], d);
          assert Join(shorter, d) == p0[1..] + [d] + Join(parts[1..], d);
        }
      }
      var s := Join(parts, d);
      assert s[0] == p0[0] && p0[0] != d;
      assert s[1..] == Join(shorter, d);
      var rest := Split(s[1..], d);
      assert rest == shorter;
      assert [[s[0]] + rest[0]] + rest[1..] == parts by {
        assert [s[0]] + rest[0] == p0;
      }
    }
  }

  function DigitChar(d: nat): char
    requires d < 10
  {
    ('0' as int + d) as char
  }

  /** The decimal digits of n, most significant first, without leading zeros. */
  function NatToString(n: nat): (text: string)
    ensures |text| >= 1
    ensures forall k :: 0 <= k < |text| ==> '0' <= text[k] <= '9'
    ensures |text| > 1 ==> text[0] != '0'
    decreases n
  {
    if n < 10 then [DigitChar(n)] else NatToString(n / 10) + [DigitChar(n % 10)]
  }

  /** The text of an integer as "$x" interpolation writes it. */
  function IntToString(i: int): (text: string)
    ensures |text| >= 1
    ensures text[0] == '-' <==> i < 0
    ensures forall k :: (if i < 0 then 1 else 0) <= k < |text| ==> '0' <= text[k] <= '9'
  {
    if i < 0 then "-" + NatToString(-i) else NatToString(i)
  }

  /** Reads a string of decimal digits back as a number. */
  function DigitsValue(s: string): int {
    if s == [] then 0 else DigitsValue(s[..|s| - 1]) * 10 + (s[|s| - 1] as int - '0' as int)
  }

  /** Reads the text of an integer back, sign included. */
  function ParseInt(s: string): int {
    if |s| > 0 && s[0] == '-' then -DigitsValue(s[1..]) else DigitsValue(s)
  }

  /** The decimal text of a natural number reads back as that number. */
  lemma {:induction false} NatToStringRoundTrip(n: nat)
    ensures |NatToString(n)| > 0 && NatToString(n)[0] != '-'
    ensures DigitsValue(NatToString(n)) == n
    decreases n
  {
    if n >= 10 {
      NatToStringRoundTrip(n / 10);
      var s := NatToString(n / 10);
      assert (s + [DigitChar(n % 10)])[..|s|] == s;
    }
  }

  /** Interpolating an integer loses nothing: the text reads back as the same integer. */
  lemma IntToStringRoundTrip(i: int)
    ensures ParseInt(IntToString(i)) == i
  {
    if i < 0 {
      NatToStringRoundTrip(-i);
      assert IntToString(i)[1..] == NatToString(-i);
    } else {
      NatToStringRoundTrip(i);
    }
  }
}
