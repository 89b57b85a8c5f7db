/** `slugify_text(value, fallback)`: lower-case ASCII letters and digits, every run of other
    characters collapsed into one `-`, no `-` at either end, and a fallback for empty input. */
module Slugs {
  import opened Wrappers
  import Text

  /** The characters the pattern `[^a-z0-9]+` does not match. */
  predicate SlugChar(c: char) { ('a' <= c <= 'z') || ('0' <= c <= '9') }

  /** Characters a slug may hold. */
  predicate SlugOrDash(s: string) {
    forall i :: 0 <= i < |s| ==> SlugChar(s[i]) || s[i] == '-'
  }

  /** No two `-` in a row. */
  predicate NoDoubleDash(s: string) {
    forall i :: 0 <= i < |s| - 1 ==> !(s[i] == '-' && s[i + 1] == '-')
  }

  /** A well-formed slug: non-empty, `[a-z0-9-]` only, no `-` at either end, no `--`. */
  predicate IsSlug(s: string) {
    s != [] && SlugOrDash(s) && NoDoubleDash(s) && s[0] != '-' && s[|s| - 1] != '-'
  }

  /** `value.encode('ascii', 'ignore').decode('ascii')`: the non-ASCII code points dropped. */
  function AsciiOnly(s: string): (r: string)
    ensures |r| <= |s|
    ensures forall i :: 0 <= i < |r| ==> r[i] as int < 128
    ensures (forall i :: 0 <= i < |s| ==> s[i] as int < 128) ==> r == s
  {
    if s == [] then []
    else if s[0] as int < 128 then [s[0]] + AsciiOnly(s[1..])
    else AsciiOnly(s[1..])
  }

  /** The rest of `s` after its leading run of non-slug characters. */
  function DropRun(s: string): (r: string)
    ensures |r| <= |s|
    ensures r == [] || SlugChar(r[0])
  {
    if s != [] && !SlugChar(s[0]) then DropRun(s[1..]) else s
  }

  /** `re.sub(r"[^a-z0-9]+", "-", s)`: each maximal run of other characters becomes one `-`. */
  function SubRuns(s: string): (r: string)
    ensures SlugOrDash(r) && NoDoubleDash(r)
    ensures r == [] <==> s == []
    ensures r != [] ==> (r[0] == '-' <==> !SlugChar(s[0]))
    decreases |s|
  {
    if s == [] then []
    else if SlugChar(s[0]) then [s[0]] + SubRuns(s[1..])
    else "-" + SubRuns(DropRun(s[1..]))
  }

  /** `str.strip('-')` from the left. */
  function StripDashLeft(s: string): (r: string)
    ensures |r| <= |s| && r == s[|s| - |r|..]
    ensures r == [] || r[0] != '-'
  {
    if s != [] && s[0] == '-' then StripDashLeft(s[1..]) else s
  }

  /** `str.strip('-')` from the right. */
  function StripDashRight(s: string): (r: string)
    ensures |r| <= |s| && r == s[..|r|]
    ensures r == [] || r[|r| - 1] != '-'
  {
    if s != [] && s[|s| - 1] == '-' then StripDashRight(s[..|s| - 1]) else s
  }

  function StripDashes(s: string): string {
    StripDashRight(StripDashLeft(s))
  }

  /** The part of `slugify_text` before the fallback: ASCII, lower case, runs collapsed, dashes
      stripped. */
  function Core(value: string): string {
    StripDashes(SubRuns(Text.Lower(AsciiOnly(value))))
  }

  /** `slugify_text(value, fallback)`; `None` and `""` are the falsy values. */
  function Slugify(value: Option<string>, fallback: string): (r: string)
    ensures r == [] ==> fallback == []
  {
    var v := if value.Some? && value.value != [] then value.value
             else if fallback != [] then fallback else "item";
    var slug := Core(v);
    if slug != [] then slug else Text.Lower(fallback)
  }

  /** A sub-sequence of a string in `[a-z0-9-]` without `--` keeps both properties. */
  lemma InfixKeepsShape(s: string, i: nat, j: nat)
    requires SlugOrDash(s) && NoDoubleDash(s) && i <= j <= |s|
    ensures SlugOrDash(s[i..j]) && NoDoubleDash(s[i..j])
  {
    var t := s[i..j];
    forall k | 0 <= k < |t| - 1
      ensures !(t[k] == '-' && t[k + 1] == '-')
    {
      assert t[k] == s[i + k] && t[k + 1] == s[i + k + 1];
    }
  }

  /** Whatever the input, a non-empty core is a well-formed slug. */
  lemma CoreIsSlug(value: string)
    ensures Core(value) != [] ==> IsSlug(Core(value))
  {
    var sub := SubRuns(Text.Lower(AsciiOnly(value)));
    var left := StripDashLeft(sub);
    InfixKeepsShape(sub, |sub| - |left|, |sub|);
    var right := StripDashRight(left);
    InfixKeepsShape(left, 0, |right|);
    if right != [] {
      assert right[0] == left[0];
    }
  }

  /** The slug of a non-empty result: either a well-formed slug, or the lowered fallback. */
  lemma SlugifyShape(value: Option<string>, fallback: string)
    ensures var r := Slugify(value, fallback);
      IsSlug(r) || r == Text.Lower(fallback)
  {
    var v := if value.Some? && value.value != [] then value.value
             else if fallback != [] then fallback else "item";
    CoreIsSlug(v);
  }

  /** With a well-formed fallback every result is a well-formed slug. */
  lemma SlugifyIsSlug(value: Option<string>, fallback: string)
    requires IsSlug(fallback)
    ensures IsSlug(Slugify(value, fallback))
  {
    LowerOfSlugChars(fallback);
    SlugifyShape(value, fallback);
  }

  /** An empty or missing value slugs its fallback (or "item" when the fallback is empty). */
  lemma EmptyUsesFallback(fallback: string)
    ensures Slugify(None, fallback) == Slugify(Some(""), fallback)
    ensures fallback != [] ==> Slugify(None, fallback) == Slugify(Some(fallback), fallback)
  {
  }

  /** `re.sub` leaves a string of `[a-z0-9-]` without `--` or a leading `-` alone. */
  lemma {:induction false} SubRunsFixed(s: string)
    requires SlugOrDash(s) && NoDoubleDash(s) && (s == [] || s[0] != '-')
    ensures SubRuns(s) == s
    decreases |s|
  {
    if s != [] {
      var t := s[1..];
      InfixKeepsShape(s, 1, |s|);
      if t != [] && t[0] == '-' {
        // the single dash between two slug characters is kept as it is
        var u := t[1..];
        InfixKeepsShape(s, 2, |s|);
        assert u == [] || (SlugChar(u[0]) && DropRun(u) == u) by {
          if u != [] {
            assert u[0] == s[2] && s[1] == '-';
          }
        }
        assert DropRun(t) == DropRun(u);
        SubRunsFixed(u);
        assert SubRuns(t) == "-" + SubRuns(u);
        assert s == [s[0]] + ("-" + u);
      } else {
        SubRunsFixed(t);
      }
    }
  }

  /** Lower-casing leaves `[a-z0-9-]` alone. */
  lemma LowerOfSlugChars(s: string)
    requires SlugOrDash(s)
    ensures Text.Lower(s) == s
  {
    var r := Text.Lower(s);
    assert forall i :: 0 <= i < |s| ==> r[i] == s[i];
  }

  /** A well-formed slug is its own slug: `slugify_text` is idempotent on its non-empty results. */
  lemma SlugOfSlug(s: string, fallback: string)
    requires IsSlug(s)
    ensures Slugify(Some(s), fallback) == s
  {
    assert AsciiOnly(s) == s;
    LowerOfSlugChars(s);
    SubRunsFixed(s);
    assert StripDashLeft(s) == s;
    assert StripDashRight(s) == s;
  }

  /** Slugifying twice is slugifying once, whenever the fallback is itself a slug. */
  lemma SlugifyIdempotent(value: Option<string>, fallback: string)
    requires IsSlug(fallback)
    ensures Slugify(Some(Slugify(value, fallback)), fallback) == Slugify(value, fallback)
  {
    LowerOfSlugChars(fallback);
    SlugifyShape(value, fallback);
    SlugOfSlug(Slugify(value, fallback), fallback);
  }
}
