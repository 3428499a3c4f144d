/** The distribution-name rule of `check_consistent.py`: the case-insensitive
    regular expression `check_metadata` applies to `stub_distribution`, and
    the PEP 426 one `check_stubs` applies to a directory of `stubs`. Both
    accept the same names. */
module DistNames {
  import opened Wrappers
  import opened Strings

  /** A character that `[a-z]` (or `[A-Z]`) matches under `re.IGNORECASE`:
      its simple lower-case form is an ASCII letter, or it is one of the two
      letters Python's `re` treats as case variants of `i` and `s`. That adds
      U+0130 (lower-cases to `i`), U+212A KELVIN SIGN (lower-cases to `k`),
      U+0131 DOTLESS I and U+017F LONG S to the ASCII letters. */
  predicate IsNameLetter(c: char) {
    || ('a' <= c <= 'z')
    || ('A' <= c <= 'Z')
    || c == '\U{130}' || c == '\U{131}' || c == '\U{17F}' || c == '\U{212A}'
  }

  /** `[a-z0-9]` under `re.IGNORECASE`. */
  predicate IsAlnum(c: char) {
    IsNameLetter(c) || IsDigit(c)
  }

  /** `[a-z0-9._-]` under `re.IGNORECASE`. */
  predicate IsNameChar(c: char) {
    IsAlnum(c) || c == '.' || c == '_' || c == '-'
  }

  /** A valid distribution name: it starts and ends with a letter or digit,
      and holds only letters, digits, `.`, `_` and `-` in between. */
  predicate ValidDistName(s: string) {
    && |s| >= 1
    && IsAlnum(s[0])
    && IsAlnum(s[|s| - 1])
    && forall i :: 0 < i < |s| - 1 ==> IsNameChar(s[i])
  }

  /** The optional group `([a-z0-9._-]*[a-z0-9])?` from position `i` to the
      end: scan the characters, remembering whether the last one consumed
      was a letter or digit, so that the group may end there. */
  function ScanGroup(s: string, i: nat, lastAlnum: bool): (r: bool)
    requires i <= |s|
    decreases |s| - i
  {
    if i == |s| then lastAlnum
    else IsNameChar(s[i]) && ScanGroup(s, i + 1, IsAlnum(s[i]))
  }

  /** What the scan accepts: every remaining character is a name character
      and the string ends on a letter or digit. */
  lemma {:induction false} ScanGroupAccepts(s: string, i: nat, lastAlnum: bool)
    requires i <= |s|
    ensures ScanGroup(s, i, lastAlnum) <==>
      && (forall j :: i <= j < |s| ==> IsNameChar(s[j]))
      && (if i == |s| then lastAlnum else IsAlnum(s[|s| - 1]))
    decreases |s| - i
  {
    if i < |s| {
      ScanGroupAccepts(s, i + 1, IsAlnum(s[i]));
    }
  }

  /** `dist_name_re.fullmatch(s)`: `^[a-z0-9]([a-z0-9._-]*[a-z0-9])?$`. */
  function DistNameReFullmatch(s: string): (r: bool)
    ensures r <==> ValidDistName(s)
  {
    if |s| == 0 || !IsAlnum(s[0]) then false
    else
      ScanGroupAccepts(s, 1, true);
      ScanGroup(s, 1, true)
  }

  /** `[A-Z0-9._-]*` over `s[i..j]`. */
  function MiddleMatches(s: string, i: nat, j: nat): (r: bool)
    requires i <= j <= |s|
    ensures r <==> forall k :: i <= k < j ==> IsNameChar(s[k])
    decreases j - i
  {
    i == j || (IsNameChar(s[i]) && MiddleMatches(s, i + 1, j))
  }

  /** `re.fullmatch("^([A-Z0-9]|[A-Z0-9][A-Z0-9._-]*[A-Z0-9])$", s,
      re.IGNORECASE)`: one letter or digit, or a letter or digit, any name
      characters, and a letter or digit. */
  function Pep426Fullmatch(s: string): (r: bool) {
    || (|s| == 1 && IsAlnum(s[0]))
    || (|s| >= 2 && IsAlnum(s[0]) && MiddleMatches(s, 1, |s| - 1) && IsAlnum(s[|s| - 1]))
  }

  /** The two expressions accept the same names. */
  lemma SameNameRule(s: string)
    ensures Pep426Fullmatch(s) <==> DistNameReFullmatch(s)
  {
  }

  /** Names the expressions accept, including one spelled with the Kelvin
      sign. */
  lemma AcceptedNames()
    ensures DistNameReFullmatch("a")
    ensures DistNameReFullmatch("a.b-c_d")
    ensures DistNameReFullmatch("X9")
    ensures DistNameReFullmatch("\U{212A}iwi")
  {
    var s := "a.b-c_d";
    assert forall i :: 0 < i < |s| - 1 ==> IsNameChar(s[i]);
  }

  /** Names the expressions refuse: empty, a leading or trailing punctuation
      character, a space, a trailing newline. */
  lemma RefusedNames()
    ensures !DistNameReFullmatch("")
    ensures !DistNameReFullmatch("-a")
    ensures !DistNameReFullmatch("a_")
    ensures !DistNameReFullmatch("a b")
    ensures !DistNameReFullmatch("a\n")
  {
    assert !IsNameChar("a b"[1]);
  }

  /** Why `check_stubs` rejects the name of a directory in `stubs`. */
  datatype NameError = InvalidDistributionName(name: string) | TypesPrefix(name: string)

  /** The name rules of `check_stubs`, in order: a valid distribution name
      that does not start with `types-`. */
  function CheckStubDirName(name: string): (r: Outcome<NameError>)
    ensures r.Pass? <==> ValidDistName(name) && !StartsWith(name, "types-")
    ensures !ValidDistName(name) ==> r == Fail(InvalidDistributionName(name))
    ensures ValidDistName(name) && StartsWith(name, "types-") ==> r == Fail(TypesPrefix(name))
  {
    SameNameRule(name);
    if !Pep426Fullmatch(name) then Fail(InvalidDistributionName(name))
    else if StartsWith(name, "types-") then Fail(TypesPrefix(name))
    else Pass
  }
}
