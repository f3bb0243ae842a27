/** Input normalisation of one chat turn: `str.strip()` followed by
    `str.lower()`, and the yes/no classification applied to the result. */
module Text {

  /** The characters Python's `str.isspace` (and so `str.strip()`) treats as whitespace. */
  predicate IsSpace(c: char) {
    ('\U{9}' <= c <= '\U{D}') || ('\U{1C}' <= c <= '\U{20}') ||
    c == '\U{85}' || c == '\U{A0}' || c == '\U{1680}' ||
    ('\U{2000}' <= c <= '\U{200A}') ||
    c == '\U{2028}' || c == '\U{2029}' || c == '\U{202F}' || c == '\U{205F}' || c == '\U{3000}'
  }

  predicate AllSpace(s: string) {
    forall i :: 0 <= i < |s| ==> IsSpace(s[i])
  }

  /** A string with no whitespace at either end. */
  predicate Trimmed(s: string) {
    s == [] || (!IsSpace(s[0]) && !IsSpace(s[|s| - 1]))
  }

  predicate IsUpper(c: char) {
    'A' <= c <= 'Z'
  }

  predicate NoUpper(s: string) {
    forall i :: 0 <= i < |s| ==> !IsUpper(s[i])
  }

  /** A string without capitals has none in any of its suffixes. */
  lemma NoUpperSuffix(a: string, b: string)
    requires NoUpper(a + b)
    ensures NoUpper(b)
  {
    forall i | 0 <= i < |b|
      ensures !IsUpper(b[i])
    {
      assert b[i] == (a + b)[|a| + i];
    }
  }

  predicate IsDigit(c: char) {
    '0' <= c <= '9'
  }

  predicate AllDigits(s: string) {
    forall i :: 0 <= i < |s| ==> IsDigit(s[i])
  }

  /** Removes the leading whitespace. */
  function TrimStart(s: string): (r: string)
    ensures |r| <= |s| && r == s[|s| - |r|..]
    ensures forall i :: 0 <= i < |s| - |r| ==> IsSpace(s[i])
    ensures r == [] || !IsSpace(r[0])
  {
    if |s| > 0 && IsSpace(s[0]) then TrimStart(s[1..]) else s
  }

  /** Removes the trailing whitespace. */
  function TrimEnd(s: string): (r: string)
    ensures |r| <= |s| && r == s[..|r|]
    ensures forall i :: |r| <= i < |s| ==> IsSpace(s[i])
    ensures r == [] || !IsSpace(r[|r| - 1])
  {
    if |s| > 0 && IsSpace(s[|s| - 1]) then TrimEnd(s[..|s| - 1]) else s
  }

  /** Python's `str.strip()` with no argument. */
  function Strip(s: string): (r: string)
    ensures Trimmed(r)
    ensures |r| <= |s|
  {
    var t := TrimStart(s);
    var r := TrimEnd(t);
    assert r != [] ==> r[0] == t[0];
    r
  }

  /** The lower-case form of an ASCII upper-case letter; every other character is kept. */
  function LowerChar(c: char): (r: char)
    ensures !IsUpper(r)
    ensures !IsUpper(c) ==> r == c
    ensures IsUpper(c) ==> 'a' <= r <= 'z' && r as int - 'a' as int == c as int - 'A' as int
    ensures IsSpace(r) <==> IsSpace(c)
  {
    if IsUpper(c) then (c as int + 32) as char else c
  }

  /** `str.lower()` on the ASCII letters. */
  function Lower(s: string): (r: string)
    ensures |r| == |s|
  {
    seq(|s|, i requires 0 <= i < |s| => LowerChar(s[i]))
  }

  /** Lower-casing maps each capital to the small letter at the same place
      in the alphabet, keeps every other character, and so leaves no
      upper-case letter and whitespace where it was. */
  lemma LowerShape(s: string)
    ensures forall i :: 0 <= i < |s| && IsUpper(s[i]) ==>
              'a' <= Lower(s)[i] <= 'z' && Lower(s)[i] as int - 'a' as int == s[i] as int - 'A' as int
    ensures forall i :: 0 <= i < |s| && !IsUpper(s[i]) ==> Lower(s)[i] == s[i]
    ensures forall i :: 0 <= i < |s| ==> !IsUpper(Lower(s)[i])
    ensures forall i :: 0 <= i < |s| ==> (IsSpace(Lower(s)[i]) <==> IsSpace(s[i]))
  {
  }

  /** `.strip().lower()`, applied to every turn's text before it is classified. */
  function Normalize(raw: string): string {
    Lower(Strip(raw))
  }

  /** A normalised turn has no whitespace at either end and no upper-case letter. */
  lemma NormalizeShape(raw: string)
    ensures Trimmed(Normalize(raw))
    ensures forall i :: 0 <= i < |Normalize(raw)| ==> !IsUpper(Normalize(raw)[i])
  {
    var t := Strip(raw);
    var n := Lower(t);
    LowerShape(t);
    if n != [] {
      assert IsSpace(n[0]) <==> IsSpace(t[0]);
      assert IsSpace(n[|n| - 1]) <==> IsSpace(t[|t| - 1]);
    }
  }

  /** Membership in `["yes", "y"]`. */
  predicate IsYes(input: string) {
    input == "yes" || input == "y"
  }

  /** Membership in `["no", "n"]`. */
  predicate IsNo(input: string) {
    input == "no" || input == "n"
  }

  lemma {:induction false} TrimStartOfSpaces(lead: string, rest: string)
    requires AllSpace(lead)
    requires rest == [] || !IsSpace(rest[0])
    ensures TrimStart(lead + rest) == rest
  {
    if lead != [] {
      assert (lead + rest)[1..] == lead[1..] + rest;
      TrimStartOfSpaces(lead[1..], rest);
    } else {
      assert lead + rest == rest;
    }
  }

  lemma {:induction false} TrimEndOfSpaces(core: string, trail: string)
    requires AllSpace(trail)
    requires core == [] || !IsSpace(core[|core| - 1])
    ensures TrimEnd(core + trail) == core
  {
    if trail != [] {
      var s := core + trail;
      assert s[..|s| - 1] == core + trail[..|trail| - 1];
      TrimEndOfSpaces(core, trail[..|trail| - 1]);
    } else {
      assert core + trail == core;
    }
  }

  /** `strip()` is characterised by its result: whatever whitespace surrounds
      a trimmed core, stripping gives back exactly that core. */
  lemma StripExactly(lead: string, core: string, trail: string)
    requires AllSpace(lead) && AllSpace(trail) && Trimmed(core)
    ensures Strip(lead + core + trail) == core
  {
    if core == [] {
      assert lead + core + trail == lead + trail;
      assert AllSpace(lead + trail);
      TrimStartOfSpaces(lead + trail, []);
      assert lead + trail + [] == lead + trail;
    } else {
      assert lead + core + trail == lead + (core + trail);
      TrimStartOfSpaces(lead, core + trail);
      TrimEndOfSpaces(core, trail);
    }
  }

  lemma LowerIdempotent(s: string)
    ensures Lower(Lower(s)) == Lower(s)
  {
  }

  /** Normalising twice is normalising once, so a turn is classified the
      same way whether or not its text was already normalised. */
  lemma NormalizeIdempotent(raw: string)
    ensures Normalize(Normalize(raw)) == Normalize(raw)
  {
    var n := Normalize(raw);
    NormalizeShape(raw);
    assert [] + n + [] == n;
    StripExactly([], n, []);
    LowerIdempotent(Strip(raw));
  }

  /** Surrounding whitespace never reaches the classifier: a turn reads as
      the lower-cased core of its text. */
  lemma NormalizeSurrounded(lead: string, core: string, trail: string)
    requires AllSpace(lead) && AllSpace(trail) && Trimmed(core)
    ensures Normalize(lead + core + trail) == Lower(core)
  {
    StripExactly(lead, core, trail);
  }

  /** Lower-casing "YES" gives "yes". */
  lemma UpperYesLowers()
    ensures Lower("YES") == "yes"
  {
    var lowered := Lower("YES");
    assert lowered[0] == 'y' && lowered[1] == 'e' && lowered[2] == 's';
  }

  /** " YES " is classified as a yes. */
  lemma SpacedUpperYesIsYes()
    ensures IsYes(Normalize(" YES "))
  {
    assert AllSpace(" ") && Trimmed("YES");
    NormalizeSurrounded(" ", "YES", " ");
    assert " " + "YES" + " " == " YES ";
    UpperYesLowers();
  }
}
