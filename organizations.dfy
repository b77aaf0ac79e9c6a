/** Creating an organization: the display name is validated, and a URL slug
    is derived from it by a chain of string transforms (lower-case, collapse
    every run of characters outside [a-z0-9] to one "-", strip one hyphen at
    each end, keep at most 50 characters). */
module Organizations {
  import opened Common

  const MaxSlugLength := 50
  const DefaultOrgType := "imf"

  // ------------------------------------------------------------ characters

  predicate IsSlugChar(c: char) {
    'a' <= c <= 'z' || '0' <= c <= '9'
  }

  /** The characters a slug can contain. */
  predicate InSlugAlphabet(c: char) {
    IsSlugChar(c) || c == '-'
  }

  const LowerLetters := "abcdefghijklmnopqrstuvwxyz"

  /** `toLowerCase` restricted to ASCII: each of A..Z maps to the letter at
      the same place of the alphabet, all else is kept. */
  function LowerAscii(c: char): (d: char)
    ensures 'A' <= c <= 'Z' ==> d == LowerLetters[c as int - 'A' as int]
    ensures !('A' <= c <= 'Z') ==> d == c
  {
    if 'A' <= c <= 'Z' then (c as int + 32) as char else c
  }

  function ToLowerAscii(s: string): (r: string)
    ensures |r| == |s|
    ensures forall i :: 0 <= i < |s| ==> r[i] == LowerAscii(s[i])
  {
    if s == [] then [] else [LowerAscii(s[0])] + ToLowerAscii(s[1..])
  }

  /** The characters JavaScript's `trim` removes: WhiteSpace and LineTerminator. */
  predicate IsJsWhitespace(c: char) {
    c == '\t' || c == '\n' || c == '\U{B}' || c == '\U{C}' || c == '\r' || c == ' '
    || c == '\U{A0}' || c == '\U{1680}' || ('\U{2000}' <= c <= '\U{200A}')
    || c == '\U{2028}' || c == '\U{2029}' || c == '\U{202F}' || c == '\U{205F}'
    || c == '\U{3000}' || c == '\U{FEFF}'
  }

  predicate NoDoubleHyphen(s: string) {
    forall i, j :: 0 <= i < |s| && j == i + 1 < |s| ==> !(s[i] == '-' && s[j] == '-')
  }

  // ------------------------------------------------------------ name check

  function TrimStart(s: string): (r: string)
    ensures |r| <= |s| && r == s[|s| - |r|..]
    ensures forall k :: 0 <= k < |s| - |r| ==> IsJsWhitespace(s[k])
    ensures r == [] || !IsJsWhitespace(r[0])
  {
    if s != [] && IsJsWhitespace(s[0]) then
      var r := TrimStart(s[1..]);
      assert s[1..][|s| - 1 - |r|..] == s[|s| - |r|..];
      assert forall k :: 1 <= k < |s| - |r| ==> s[k] == s[1..][k - 1];
      r
    else s
  }

  function TrimEnd(s: string): (r: string)
    ensures |r| <= |s| && r == s[..|r|]
    ensures forall k :: |r| <= k < |s| ==> IsJsWhitespace(s[k])
    ensures r == [] || !IsJsWhitespace(r[|r| - 1])
  {
    if s != [] && IsJsWhitespace(s[|s| - 1]) then TrimEnd(s[..|s| - 1]) else s
  }

  function Trim(s: string): string {
    TrimEnd(TrimStart(s))
  }

  /** JavaScript's `length`: the number of UTF-16 code units, two for a
      character outside the Basic Multilingual Plane. */
  function JsLength(s: string): (n: nat)
    ensures |s| <= n <= 2 * |s|
  {
    if s == [] then 0 else (if s[0] as int >= 0x1_0000 then 2 else 1) + JsLength(s[1..])
  }

  /** The name is accepted when it is a string (None stands for an absent or
      non-string value) whose trimmed length, in UTF-16 code units, is at
      least 2. */
  predicate ValidName(name: Option<string>) {
    Truthy(name) && JsLength(Trim(name.value)) >= 2
  }

  // ------------------------------------------------------------ slug pipeline

  /** Drops the non-[a-z0-9] characters at the front: the rest of a run. */
  function DropRun(s: string): (r: string)
    ensures |r| <= |s| && r == s[|s| - |r|..]
    ensures forall k :: 0 <= k < |s| - |r| ==> !IsSlugChar(s[k])
    ensures r == [] || IsSlugChar(r[0])
  {
    if s != [] && !IsSlugChar(s[0]) then
      var r := DropRun(s[1..]);
      assert s[1..][|s| - 1 - |r|..] == s[|s| - |r|..];
      assert forall k :: 1 <= k < |s| - |r| ==> s[k] == s[1..][k - 1];
      r
    else s
  }

  /** `replace(/[^a-z0-9]+/g, "-")`: each maximal run of characters outside
      [a-z0-9] becomes a single hyphen. */
  function CollapseRuns(s: string): (r: string)
    ensures s == [] <==> r == []
    ensures s != [] && IsSlugChar(s[0]) ==> r[0] == s[0]
    ensures s != [] && !IsSlugChar(s[0]) ==> r[0] == '-'
    decreases |s|
  {
    if s == [] then []
    else if IsSlugChar(s[0]) then [s[0]] + CollapseRuns(s[1..])
    else "-" + CollapseRuns(DropRun(s[1..]))
  }

  /** Strings over [a-z0-9-] without two adjacent hyphens. */
  predicate SlugShaped(s: string) {
    (forall i :: 0 <= i < |s| ==> InSlugAlphabet(s[i])) && NoDoubleHyphen(s)
  }

  lemma SlugShapedSlice(s: string, a: nat, b: nat)
    requires SlugShaped(s) && a <= b <= |s|
    ensures SlugShaped(s[a..b])
  {
    var t := s[a..b];
    assert forall i :: 0 <= i < |t| ==> t[i] == s[a + i];
  }

  /** Putting a character of the alphabet in front keeps the shape, as long
      as it does not put a hyphen before a hyphen. */
  lemma ConsSlugShaped(c: char, t: string)
    requires InSlugAlphabet(c) && SlugShaped(t)
    requires c == '-' ==> t == [] || t[0] != '-'
    ensures SlugShaped([c] + t)
  {
    var r := [c] + t;
    assert forall i :: 1 <= i < |r| ==> r[i] == t[i - 1];
  }

  /** The collapsed string has only [a-z0-9-] and never two hyphens in a row. */
  lemma {:induction false} CollapsedIsSlugShaped(s: string)
    ensures SlugShaped(CollapseRuns(s))
    decreases |s|
  {
    if s != [] {
      if IsSlugChar(s[0]) {
        CollapsedIsSlugShaped(s[1..]);
        ConsSlugShaped(s[0], CollapseRuns(s[1..]));
      } else {
        var rest := DropRun(s[1..]);
        CollapsedIsSlugShaped(rest);
        ConsSlugShaped('-', CollapseRuns(rest));
        assert CollapseRuns(s) == "-" + CollapseRuns(rest);
      }
    }
  }

  /** `replace(/^-|-$/g, "")`: one hyphen at the start and one at the end are removed. */
  function StripEdgeHyphens(s: string): (r: string)
    ensures |r| <= |s|
    ensures s != [] && s[0] == '-' && |s| >= 2 && s[|s| - 1] == '-' ==> r == s[1..|s| - 1]
    ensures s != [] && s[0] == '-' && !(|s| >= 2 && s[|s| - 1] == '-') ==> r == s[1..]
    ensures !(s != [] && s[0] == '-') && s != [] && s[|s| - 1] == '-' ==> r == s[..|s| - 1]
    ensures !(s != [] && s[0] == '-') && !(s != [] && s[|s| - 1] == '-') ==> r == s
  {
    var a := if s != [] && s[0] == '-' then s[1..] else s;
    if a != [] && a[|a| - 1] == '-' then a[..|a| - 1] else a
  }

  /** `substring(0, 50)`. */
  function Truncate(s: string): (r: string)
    ensures |r| <= MaxSlugLength && |r| <= |s|
    ensures r == s[..|r|]
    ensures |s| <= MaxSlugLength ==> r == s
    ensures |s| > MaxSlugLength ==> |r| == MaxSlugLength
  {
    if |s| <= MaxSlugLength then s else s[..MaxSlugLength]
  }

  /** The stripped string before truncation. */
  function Stripped(name: string): string {
    StripEdgeHyphens(CollapseRuns(ToLowerAscii(name)))
  }

  /** The slug derived from an organization name. */
  function Slugify(name: string): (slug: string)
    ensures |slug| <= MaxSlugLength
    ensures SlugShaped(slug)
    ensures slug == [] || slug[0] != '-'
    ensures |Stripped(name)| <= MaxSlugLength ==> slug == [] || slug[|slug| - 1] != '-'
  {
    var c := CollapseRuns(ToLowerAscii(name));
    CollapsedIsSlugShaped(ToLowerAscii(name));
    var s := StripEdgeHyphens(c);
    StrippedIsSlugShaped(c);
    SlugShapedSlice(s, 0, |Truncate(s)|);
    Truncate(s)
  }

  /** Stripping keeps the shape and leaves no hyphen at either end. */
  lemma StrippedIsSlugShaped(c: string)
    requires SlugShaped(c)
    ensures SlugShaped(StripEdgeHyphens(c))
    ensures StripEdgeHyphens(c) == [] || StripEdgeHyphens(c)[0] != '-'
    ensures StripEdgeHyphens(c) == [] || StripEdgeHyphens(c)[|StripEdgeHyphens(c)| - 1] != '-'
  {
    var lo := if c != [] && c[0] == '-' then 1 else 0;
    var hi := if |c| > lo && c[|c| - 1] == '-' then |c| - 1 else |c|;
    assert StripEdgeHyphens(c) == c[lo..hi];
    SlugShapedSlice(c, lo, hi);
    if lo == 1 && |c| >= 2 {
      assert c[1] != '-';
    }
    if hi == |c| - 1 && hi - 1 >= lo {
      assert c[hi - 1] != '-';
    }
  }

  // ------------------------------------------------------------ the handler

  /** The organization row as inserted: name, slug and type. */
  datatype Organization = Organization(name: string, slug: string, orgType: string)

  datatype OrgResponse =
    | Unauthenticated
    | InvalidName
    | CreationFailed
    | Created(org: Organization)
  {
    function Status(): int {
      match this
      case Unauthenticated => 401
      case InvalidName => 400
      case CreationFailed => 500
      case Created(_) => 201
    }
  }

  /** POST on the organizations route. `user` is the authenticated user, if
      any; `takenSlugs` are the slugs already stored (the column is unique)
      and `storeOk` says whether the store accepts the insert otherwise. */
  function CreateOrganizationPost(
    user: Option<string>, name: Option<string>, orgType: Option<string>,
    takenSlugs: set<string>, storeOk: bool): (resp: OrgResponse)
    ensures user.None? <==> resp == Unauthenticated
    ensures user.Some? ==> (resp == InvalidName <==> !ValidName(name))
    ensures resp.Created? ==>
      && ValidName(name)
      && resp.org.name == Trim(name.value)
      && resp.org.slug == Slugify(name.value)
      && resp.org.slug !in takenSlugs
      && resp.org.orgType == OrElse(orgType, DefaultOrgType)
    ensures user.Some? && ValidName(name) ==>
      (resp.Created? <==> storeOk && Slugify(name.value) !in takenSlugs)
  {
    if user.None? then Unauthenticated
    else if !ValidName(name) then InvalidName
    else
      var slug := Slugify(name.value);
      if !storeOk || slug in takenSlugs then CreationFailed
      else Created(Organization(Trim(name.value), slug, OrElse(orgType, DefaultOrgType)))
  }

  // ---------------------------------------------------------------- lemmas

  function KeepSlugChars(s: string): string {
    if s == [] then [] else (if IsSlugChar(s[0]) then [s[0]] else []) + KeepSlugChars(s[1..])
  }

  function RemoveHyphens(s: string): string {
    if s == [] then [] else (if s[0] == '-' then [] else [s[0]]) + RemoveHyphens(s[1..])
  }

  lemma {:induction false} DropRunKeepsSlugChars(s: string)
    ensures KeepSlugChars(DropRun(s)) == KeepSlugChars(s)
  {
    if s != [] && !IsSlugChar(s[0]) {
      DropRunKeepsSlugChars(s[1..]);
    }
  }

  /** Collapsing loses no letter or digit and adds none: apart from its
      hyphens, the collapsed string is exactly the [a-z0-9] characters of
      the input, in order. */
  lemma {:induction false} CollapseKeepsSlugChars(s: string)
    ensures RemoveHyphens(CollapseRuns(s)) == KeepSlugChars(s)
    decreases |s|
  {
    if s != [] {
      if IsSlugChar(s[0]) {
        CollapseKeepsSlugChars(s[1..]);
        assert ([s[0]] + CollapseRuns(s[1..]))[1..] == CollapseRuns(s[1..]);
      } else {
        var t := DropRun(s[1..]);
        CollapseKeepsSlugChars(t);
        DropRunKeepsSlugChars(s[1..]);
        assert ("-" + CollapseRuns(t))[1..] == CollapseRuns(t);
      }
    }
  }

  lemma TailOfConcat(u: string, t: string)
    requires u != []
    ensures (u + t)[1..] == u[1..] + t
  {
  }

  lemma HeadAndTail(u: string, t: string)
    requires u != []
    ensures [u[0]] + (u[1..] + t) == u + t
  {
    assert u == [u[0]] + u[1..];
  }

  lemma {:induction false} CollapseSlugPrefix(u: string, t: string)
    requires forall i :: 0 <= i < |u| ==> IsSlugChar(u[i])
    ensures CollapseRuns(u + t) == u + CollapseRuns(t)
  {
    if u != [] {
      var v := u[1..];
      assert forall i :: 0 <= i < |v| ==> v[i] == u[i + 1];
      CollapseSlugPrefix(v, t);
      var s := u + t;
      TailOfConcat(u, t);
      assert s[0] == u[0] && IsSlugChar(s[0]);
      assert CollapseRuns(s) == [u[0]] + CollapseRuns(v + t);
      HeadAndTail(u, CollapseRuns(t));
    } else {
      assert u + t == t;
    }
  }

  lemma {:induction false} LowerLettersUnchanged(w: string)
    requires forall i :: 0 <= i < |w| ==> !('A' <= w[i] <= 'Z')
    ensures ToLowerAscii(w) == w
  {
    if w != [] {
      LowerLettersUnchanged(w[1..]);
    }
  }

  lemma CollapseSpaceB()
    ensures CollapseRuns(" b") == "-b"
  {
    var sp := " b";
    assert sp[0] == ' ' && !IsSlugChar(sp[0]);
    assert sp[1..] == "b";
    assert IsSlugChar('b');
    assert DropRun("b") == "b";
    assert "b"[1..] == [];
    assert CollapseRuns("b") == ['b'] + CollapseRuns([]);
    assert CollapseRuns(sp) == "-" + CollapseRuns(DropRun(sp[1..]));
  }

  lemma TrimKeepsLetterEnds(s: string)
    requires |s| >= 2 && !IsJsWhitespace(s[0]) && !IsJsWhitespace(s[|s| - 1])
    ensures Trim(s) == s
  {
  }

  /** A word of lower-case letters followed by " b" has no upper-case letter. */
  lemma {:induction false} LowerWordSpaceB(w: string)
    requires forall i :: 0 <= i < |w| ==> 'a' <= w[i] <= 'z'
    ensures ToLowerAscii(w + " b") == w + " b"
  {
    var name := w + " b";
    var lowered := ToLowerAscii(name);
    assert |name| == |w| + 2 && name[|w|] == ' ' && name[|w| + 1] == 'b';
    forall i | 0 <= i < |name| ensures lowered[i] == name[i] {
      if i < |w| {
        assert name[i] == w[i] && 'a' <= w[i] <= 'z';
      }
    }
  }

  lemma {:induction false} LongNameCollapses(w: string)
    requires forall i :: 0 <= i < |w| ==> 'a' <= w[i] <= 'z'
    ensures CollapseRuns(ToLowerAscii(w + " b")) == w + "-b"
  {
    LowerWordSpaceB(w);
    assert forall i :: 0 <= i < |w| ==> IsSlugChar(w[i]);
    CollapseSlugPrefix(w, " b");
    CollapseSpaceB();
    assert CollapseRuns(w + " b") == w + "-b";
  }

  lemma {:induction false} LongNameIsValid(w: string)
    requires |w| == 49
    requires forall i :: 0 <= i < |w| ==> 'a' <= w[i] <= 'z'
    ensures ValidName(Some(w + " b"))
  {
    var name := w + " b";
    assert name[0] == w[0] && name[50] == 'b';
    TrimKeepsLetterEnds(name);
  }

  /** Truncation can leave a trailing hyphen: a name of 49 lower-case letters
      followed by " b" collapses to 51 characters and is cut just after the
      hyphen. */
  lemma {:induction false} LongNameCanEndWithHyphen(w: string)
    requires |w| == 49
    requires forall i :: 0 <= i < |w| ==> 'a' <= w[i] <= 'z'
    ensures ValidName(Some(w + " b"))
    ensures Slugify(w + " b") == w + "-"
  {
    LongNameIsValid(w);
    LongNameCollapses(w);
    var c := w + "-b";
    assert |c| == 51 && c[0] == w[0] && c[50] == 'b';
    var s := StripEdgeHyphens(c);
    assert s == c;
    var t := Truncate(s);
    assert |t| == 50 && t == c[..50];
    assert c[..50] == w + "-" by {
      assert c == (w + "-") + "b";
    }
    assert Slugify(w + " b") == t;
  }

  /** A name of one character outside the Basic Multilingual Plane is two
      UTF-16 code units long, so it passes validation; it yields an empty slug. */
  lemma AstralNameIsValid()
    ensures JsLength("\U{1F600}") == 2
    ensures ValidName(Some("\U{1F600}"))
    ensures Slugify("\U{1F600}") == ""
  {
    var e := "\U{1F600}";
    assert !IsJsWhitespace(e[0]) && !IsSlugChar(e[0]) && e[1..] == "";
    assert Trim(e) == e by {
      assert TrimStart(e) == e;
      assert TrimEnd(e) == e;
    }
    LowerLettersUnchanged(e);
    assert CollapseRuns(e) == "-" + CollapseRuns(DropRun(""));
    assert StripEdgeHyphens("-") == "";
    assert Slugify(e) == Truncate("");
  }

  /** A name made only of punctuation passes validation yet yields an empty slug. */
  lemma PunctuationNameGivesEmptySlug()
    ensures ValidName(Some("!!"))
    ensures Slugify("!!") == ""
  {
    var bang := "!!";
    assert bang[0] == '!' && bang[1..] == "!" && !IsSlugChar('!');
    LowerLettersUnchanged(bang);
    assert DropRun("!") == "" by { assert "!"[1..] == ""; }
    assert CollapseRuns(bang) == "-" + CollapseRuns("");
    assert StripEdgeHyphens("-") == "";
    assert Slugify(bang) == Truncate("");
    assert Trim(bang) == bang by {
      assert TrimStart(bang) == bang;
      assert TrimEnd(bang) == bang;
    }
  }
}
