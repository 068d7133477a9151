/** Note names (Pythoven.py, NOTES and noteString): a pitch, relative to a
    key, is split into an octave count and one of twelve note names, and
    written as "+1D", "-2A#", "E" or, padded, "  E ". */
module NoteNames {
  import opened Arith
  import opened Outcomes

  /** The twelve names, C = 0. */
  const Notes: seq<string> := ["C", "C#", "D", "D#", "E", "F", "F#", "G", "G#", "A", "A#", "B"]

  /** NOTES.index(key): the position of key among the names; a key that is
      not a name raises ValueError (None). */
  function KeyIndex(key: string): (r: Option<nat>)
    ensures r.Some? ==> r.value < |Notes| && Notes[r.value] == key
    ensures r.None? <==> key !in Notes
  {
    if key in Notes then
      var k :| 0 <= k < |Notes| && Notes[k] == key;
      Some(k)
    else None
  }

  lemma NotesDistinct()
    ensures forall i, j :: 0 <= i < j < |Notes| ==> Notes[i] != Notes[j]
  {
  }

  /** The decimal digits of n (Python's "%d" for a non-negative int). */
  function NatString(n: nat): (s: string)
    ensures |s| > 0 && forall c :: c in s ==> '0' <= c <= '9'
  {
    var d := ['0' + ((n % 10) as char)];
    if n < 10 then d else NatString(n / 10) + d
  }

  /** Reads decimal digits back. */
  function ParseNat(s: string): nat
  {
    if s == [] then 0 else 10 * ParseNat(s[..|s| - 1]) + ((s[|s| - 1] as int - '0' as int) % 10)
  }

  lemma {:induction false} ParseNatString(n: nat)
    ensures ParseNat(NatString(n)) == n
  {
    var s := NatString(n);
    if n >= 10 {
      ParseNatString(n / 10);
      assert s[..|s| - 1] == NatString(n / 10);
    }
  }

  /** The octave prefix: "+n" above the key's octave, "n" (with its minus
      sign) below it, and nothing (two spaces when padded) in it. */
  function OctavePrefix(octave: int, padded: bool): string
  {
    if octave > 0 then "+" + NatString(octave)
    else if octave < 0 then "-" + NatString(-octave)
    else if padded then "  " else ""
  }

  /** `s.ljust(4)`. */
  function LeftJustify(s: string, width: nat): (r: string)
    ensures |r| == if |s| >= width then |s| else width
    ensures r[..|s|] == s && forall i :: |s| <= i < |r| ==> r[i] == ' '
  {
    if |s| >= width then s else s + seq(width - |s|, _ => ' ')
  }

  /** noteString's result for an octave count and a name index. */
  function Label(octave: int, name: nat, padded: bool): string
    requires name < |Notes|
  {
    var s := OctavePrefix(octave, padded) + Notes[name];
    if padded then LeftJustify(s, 4) else s
  }

  /** noteString: move i = note + key into [0, 12) with two loops, counting
      octaves in n. */
  method NoteString(note: int, key: string, padded: bool) returns (r: Option<string>)
    ensures r.None? <==> key !in Notes
    ensures r.Some? ==> var x := note + KeyIndex(key).value;
                        r.value == Label(x / 12, x % 12, padded)
  {
    var k := KeyIndex(key);
    if k.None? {
      return None;
    }
    var g := |Notes|;
    var i := note + k.value;
    var n := 0;
    while i < 0
      invariant n * g + i == note + k.value
      decreases -i
    {
      i := i + g;
      n := n - 1;
    }
    while i >= g
      invariant n * g + i == note + k.value && 0 <= i
      decreases i
    {
      i := i - g;
      n := n + 1;
    }
    DivModUnique(note + k.value, g, n, i);
    r := Some(Label(n, i, padded));
  }

  predicate IsDigit(c: char) { '0' <= c <= '9' }

  /** Reads an unpadded label back into (octave, name index): an optional
      sign and digits, then the name. */
  function ParseLabel(s: string): (r: Option<(int, nat)>)
  {
    if s in Notes then Some((0, KeyIndex(s).value))
    else if |s| >= 2 && (s[0] == '+' || s[0] == '-') then
      var tail := s[1..];
      var p := DigitRun(tail);
      var name := tail[p..];
      var o: int := ParseNat(tail[..p]);
      var octave: int := if s[0] == '+' then o else -o;
      if p > 0 && name in Notes then Some((octave, KeyIndex(name).value))
      else None
    else None
  }

  /** The length of the run of digits that starts s. */
  function DigitRun(s: string): (p: nat)
    ensures p <= |s|
    ensures forall i :: 0 <= i < p ==> IsDigit(s[i])
    ensures p < |s| ==> !IsDigit(s[p])
  {
    if s == [] || !IsDigit(s[0]) then 0 else 1 + DigitRun(s[1..])
  }

  lemma DigitRunOf(d: string, name: string)
    requires forall c :: c in d ==> IsDigit(c)
    requires |name| > 0 && !IsDigit(name[0])
    ensures DigitRun(d + name) == |d|
  {
    if d != [] {
      assert (d + name)[1..] == d[1..] + name;
      DigitRunOf(d[1..], name);
    }
  }

  /** Every unpadded label reads back as the octave and name written. */
  lemma ParseLabelRoundTrip(octave: int, name: nat)
    requires name < |Notes|
    ensures ParseLabel(Label(octave, name, false)) == Some((octave, name))
  {
    var s := Label(octave, name, false);
    NameIndex(name);
    if octave != 0 {
      var digits := NatString(if octave > 0 then octave else -octave);
      assert s == [s[0]] + digits + Notes[name];
      assert s[1..] == digits + Notes[name];
      SignedNotName(s);
      DigitRunOf(digits, Notes[name]);
      assert s[1..][..|digits|] == digits;
      assert s[1..][|digits|..] == Notes[name];
      ParseNatString(if octave > 0 then octave else -octave);
    } else {
      assert s == Notes[name];
    }
  }

  lemma NameIndex(name: nat)
    requires name < |Notes|
    ensures KeyIndex(Notes[name]) == Some(name)
  {
    NotesDistinct();
  }

  /** No note name starts with an octave sign. */
  lemma SignedNotName(s: string)
    requires |s| >= 1 && (s[0] == '+' || s[0] == '-')
    ensures s !in Notes
  {
  }


  /** Padding only adds spaces: a padded label without its spaces is the
      unpadded label. */
  function Unspaced(s: string): (r: string)
    ensures forall c :: c in r ==> c != ' ' && c in s
  {
    if s == [] then [] else (if s[0] == ' ' then [] else [s[0]]) + Unspaced(s[1..])
  }

  lemma UnspacedAppend(a: string, b: string)
    ensures Unspaced(a + b) == Unspaced(a) + Unspaced(b)
  {
    if a != [] {
      var head := if a[0] == ' ' then [] else [a[0]];
      assert (a + b)[0] == a[0] && (a + b)[1..] == a[1..] + b;
      UnspacedAppend(a[1..], b);
      calc {
        Unspaced(a + b);
        head + Unspaced(a[1..] + b);
        head + (Unspaced(a[1..]) + Unspaced(b));
        (head + Unspaced(a[1..])) + Unspaced(b);
      }
    } else {
      assert a + b == b;
    }
  }

  lemma UnspacedBlank(s: string)
    requires forall i :: 0 <= i < |s| ==> s[i] == ' '
    ensures Unspaced(s) == []
  {
  }

  lemma NameUnspaced(name: nat)
    requires name < |Notes|
    ensures Unspaced(Notes[name]) == Notes[name]
  {
    assert forall k, i :: 0 <= k < |Notes| && 0 <= i < |Notes[k]| ==> Notes[k][i] != ' ';
    UnspacedDigits(Notes[name]);
  }

  lemma UnspacedDigits(s: string)
    requires forall i :: 0 <= i < |s| ==> s[i] != ' '
    ensures Unspaced(s) == s
  {
    if s != [] {
      assert s == [s[0]] + s[1..];
      UnspacedDigits(s[1..]);
    }
  }

  lemma PaddedLabel(octave: int, name: nat)
    requires name < |Notes|
    ensures |Label(octave, name, true)| >= 4
    ensures Unspaced(Label(octave, name, true)) == Label(octave, name, false)
  {
    var core := OctavePrefix(octave, true) + Notes[name];
    var s := LeftJustify(core, 4);
    assert s == core + s[|core|..];
    UnspacedAppend(core, s[|core|..]);
    UnspacedBlank(s[|core|..]);
    UnspacedAppend(OctavePrefix(octave, true), Notes[name]);
    NameUnspaced(name);
    if octave == 0 {
      assert Unspaced("  ") == [];
    } else {
      var prefix := OctavePrefix(octave, true);
      assert forall i :: 1 <= i < |prefix| ==> prefix[i] in prefix[1..];
      UnspacedDigits(prefix);
    }
  }
}
