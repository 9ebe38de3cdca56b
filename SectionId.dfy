/**
 * `createSectionId`, the slug that turns a heading into an anchor id:
 * lower-case the title, replace each run of characters outside `[a-z0-9]`
 * by one `-`, then strip the dashes at both ends.
 */
module SectionId {
  import Text

  predicate IsSlugChar(c: char)
  {
    'a' <= c <= 'z' || '0' <= c <= '9'
  }

  /** Only `a`-`z`, `0`-`9` and `-`. */
  predicate IsSlugText(s: string)
  {
    forall i :: 0 <= i < |s| ==> IsSlugChar(s[i]) || s[i] == '-'
  }

  /** No two adjacent dashes. */
  predicate NoDoubleDash(s: string)
  {
    forall i :: 0 <= i < |s| - 1 ==> s[i] != '-' || s[i + 1] != '-'
  }

  predicate NoEdgeDash(s: string)
  {
    s == [] || (s[0] != '-' && s[|s| - 1] != '-')
  }

  /** No letter or digit: a run of separators. */
  predicate AllSeparators(s: string)
  {
    forall i :: 0 <= i < |s| ==> !IsSlugChar(s[i])
  }

  /**
   * Drop the leading characters outside `[a-z0-9]`: the rest of one run.
   * That the result is the rest of the input is `DropRunSuffix`.
   */
  function DropRun(s: string): (r: string)
    ensures |r| <= |s|
    ensures r == [] || IsSlugChar(r[0])
    ensures forall i :: 0 <= i < |s| - |r| ==> !IsSlugChar(s[i])
  {
    if s != [] && !IsSlugChar(s[0]) then DropRun(s[1..]) else s
  }

  /** Only the leading separators are dropped. */
  lemma {:induction false} DropRunSuffix(s: string)
    ensures DropRun(s) == s[|s| - |DropRun(s)|..]
  {
    if s != [] && !IsSlugChar(s[0]) {
      DropRunSuffix(s[1..]);
    }
  }

  /** `.replace(/[^a-z0-9]+/g, '-')`. */
  function Collapse(s: string): (r: string)
    ensures IsSlugText(r) && NoDoubleDash(r)
    ensures r == [] <==> s == []
    ensures |r| <= |s|
    ensures s != [] && IsSlugChar(s[0]) ==> r[0] == s[0]
    decreases |s|
  {
    if s == [] then []
    else if IsSlugChar(s[0]) then [s[0]] + Collapse(s[1..])
    else ['-'] + Collapse(DropRun(s[1..]))
  }

  /**
   * The leading half of `.replace(/^-+|-+$/g, '')`. That the result is the
   * rest of the input is `TrimDashStartSuffix`, kept out of the contract so
   * that the slug's unfolding stays small.
   */
  function TrimDashStart(s: string): (r: string)
    ensures |r| <= |s|
    ensures r == [] || r[0] != '-'
    ensures forall i :: 0 <= i < |s| - |r| ==> s[i] == '-'
  {
    if s != [] && s[0] == '-' then TrimDashStart(s[1..]) else s
  }

  /** The leading dashes are all that is removed. */
  lemma {:induction false} TrimDashStartSuffix(s: string)
    ensures TrimDashStart(s) == s[|s| - |TrimDashStart(s)|..]
  {
    if s != [] && s[0] == '-' {
      TrimDashStartSuffix(s[1..]);
    }
  }

  /** The trailing half of `.replace(/^-+|-+$/g, '')`; `TrimDashEndPrefix` says it keeps a prefix. */
  function TrimDashEnd(s: string): (r: string)
    ensures |r| <= |s|
    ensures r == [] || r[|r| - 1] != '-'
    ensures forall i :: |r| <= i < |s| ==> s[i] == '-'
  {
    if s != [] && s[|s| - 1] == '-' then TrimDashEnd(s[..|s| - 1]) else s
  }

  /** The trailing dashes are all that is removed. */
  lemma {:induction false} TrimDashEndPrefix(s: string)
    ensures TrimDashEnd(s) == s[..|TrimDashEnd(s)|]
  {
    if s != [] && s[|s| - 1] == '-' {
      TrimDashEndPrefix(s[..|s| - 1]);
    }
  }

  /**
   * `createSectionId`. The id is never longer than the title; `SlugShape`,
   * `SlugKeepsAlnum` and `SlugIdempotent` state what it contains.
   */
  function Slug(title: string): (id: string)
    ensures |id| <= |title|
    ensures title == "" ==> id == ""
  {
    TrimDashEnd(TrimDashStart(Collapse(Text.Lower(title))))
  }

  /**
   * An id has only `a`-`z`, `0`-`9` and `-`, never a dash at either end,
   * never two dashes in a row.
   */
  lemma SlugShape(title: string)
    ensures var id := Slug(title); IsSlugText(id) && NoEdgeDash(id) && NoDoubleDash(id)
  {
    var c := Collapse(Text.Lower(title));
    TrimDashStartKeepsSlugText(c);
    TrimDashEndKeepsSlugText(TrimDashStart(c));
  }

  lemma TrimDashStartKeepsSlugText(c: string)
    requires IsSlugText(c) && NoDoubleDash(c)
    ensures var t := TrimDashStart(c); IsSlugText(t) && NoDoubleDash(t)
  {
    var t := TrimDashStart(c);
    TrimDashStartSuffix(c);
    SuffixKeepsSlugText(c, |c| - |t|);
  }

  lemma TrimDashEndKeepsSlugText(t: string)
    requires IsSlugText(t) && NoDoubleDash(t) && (t == [] || t[0] != '-')
    ensures var id := TrimDashEnd(t); IsSlugText(id) && NoEdgeDash(id) && NoDoubleDash(id)
  {
    var id := TrimDashEnd(t);
    TrimDashEndPrefix(t);
    SliceKeepsSlugText(t, 0, |id|);
    assert t[0..|id|] == id;
    assert id != [] ==> id[0] == t[0];
  }

  /** A slice of slug text without double dashes is again such text. */
  lemma SliceKeepsSlugText(s: string, i: int, j: int)
    requires 0 <= i <= j <= |s|
    requires IsSlugText(s) && NoDoubleDash(s)
    ensures IsSlugText(s[i..j]) && NoDoubleDash(s[i..j])
  {
    forall k | 0 <= k < j - i - 1
      ensures s[i..j][k] != '-' || s[i..j][k + 1] != '-'
    {
      assert s[i..j][k] == s[i + k] && s[i..j][k + 1] == s[i + k + 1];
    }
  }

  lemma SuffixKeepsSlugText(s: string, i: int)
    requires 0 <= i <= |s|
    requires IsSlugText(s) && NoDoubleDash(s)
    ensures IsSlugText(s[i..]) && NoDoubleDash(s[i..])
  {
    forall k | 0 <= k < |s| - i - 1
      ensures s[i..][k] != '-' || s[i..][k + 1] != '-'
    {
      assert s[i..][k] == s[i + k] && s[i..][k + 1] == s[i + k + 1];
    }
  }

  /** The letters and digits of a string, in order. */
  function Alnum(s: string): string
  {
    if s == [] then [] else (if IsSlugChar(s[0]) then [s[0]] else []) + Alnum(s[1..])
  }

  lemma {:induction false} AlnumAppend(a: string, b: string)
    ensures Alnum(a + b) == Alnum(a) + Alnum(b)
  {
    if a == [] {
      assert a + b == b;
    } else {
      assert (a + b)[0] == a[0];
      assert (a + b)[1..] == a[1..] + b;
      AlnumAppend(a[1..], b);
      var head := if IsSlugChar(a[0]) then [a[0]] else [];
      assert Alnum(a + b) == head + (Alnum(a[1..]) + Alnum(b));
      Text.ConcatAssoc(head, Alnum(a[1..]), Alnum(b));
    }
  }

  lemma {:induction false} AlnumOfSeparators(s: string)
    requires AllSeparators(s)
    ensures Alnum(s) == []
  {
    if s != [] {
      AlnumOfSeparators(s[1..]);
    }
  }

  /** Collapsing separator runs keeps every letter and digit, in order. */
  lemma {:induction false} CollapseKeepsAlnum(s: string)
    ensures Alnum(Collapse(s)) == Alnum(s)
    decreases |s|
  {
    if s == [] {
    } else if IsSlugChar(s[0]) {
      CollapseKeepsAlnum(s[1..]);
      assert Collapse(s) == [s[0]] + Collapse(s[1..]);
      AlnumAppend([s[0]], Collapse(s[1..]));
      assert Alnum([s[0]]) == [s[0]] + Alnum([]);
      assert Alnum(s) == [s[0]] + Alnum(s[1..]);
    } else {
      var r := DropRun(s[1..]);
      CollapseKeepsAlnum(r);
      assert Collapse(s) == ['-'] + Collapse(r);
      AlnumAppend(['-'], Collapse(r));
      assert Alnum(['-']) == [] + Alnum([]);
      DropRunKeepsAlnum(s[1..]);
      assert Alnum(s) == Alnum(s[1..]);
    }
  }

  /** The separators a run drops hold no letter or digit. */
  lemma DropRunKeepsAlnum(t: string)
    ensures Alnum(DropRun(t)) == Alnum(t)
  {
    var k := |t| - |DropRun(t)|;
    DropRunSuffix(t);
    AlnumSplit(t, k);
    forall i | 0 <= i < k
      ensures !IsSlugChar(t[..k][i])
    {
      assert t[..k][i] == t[i];
    }
    AlnumOfSeparators(t[..k]);
  }

  lemma AlnumSplit(t: string, k: int)
    requires 0 <= k <= |t|
    ensures Alnum(t) == Alnum(t[..k]) + Alnum(t[k..])
  {
    assert t == t[..k] + t[k..];
    AlnumAppend(t[..k], t[k..]);
  }

  lemma {:induction false} AlnumOfDashes(s: string)
    requires forall i :: 0 <= i < |s| ==> s[i] == '-'
    ensures Alnum(s) == []
  {
    AlnumOfSeparators(s);
  }

  /**
   * The id keeps every ASCII letter (lower-cased) and digit of the title,
   * in order: only separators are changed or dropped.
   */
  lemma SlugKeepsAlnum(title: string)
    ensures Alnum(Slug(title)) == Alnum(Text.Lower(title))
  {
    var c := Collapse(Text.Lower(title));
    CollapseKeepsAlnum(Text.Lower(title));
    TrimDashStartKeepsAlnum(c);
    TrimDashEndKeepsAlnum(TrimDashStart(c));
  }

  lemma TrimDashStartKeepsAlnum(s: string)
    ensures Alnum(TrimDashStart(s)) == Alnum(s)
  {
    var r := TrimDashStart(s);
    TrimDashStartSuffix(s);
    var dashes := s[..|s| - |r|];
    assert s == dashes + r;
    AlnumAppend(dashes, r);
    AlnumOfDashes(dashes);
  }

  lemma TrimDashEndKeepsAlnum(s: string)
    ensures Alnum(TrimDashEnd(s)) == Alnum(s)
  {
    var r := TrimDashEnd(s);
    TrimDashEndPrefix(s);
    var dashes := s[|r|..];
    assert s == r + dashes;
    AlnumAppend(r, dashes);
    AlnumOfDashes(dashes);
  }

  /** On slug text without double dashes, the run replacement changes nothing. */
  lemma {:induction false} CollapseOfSlugText(s: string)
    requires IsSlugText(s) && NoDoubleDash(s)
    ensures Collapse(s) == s
    decreases |s|
  {
    if s != [] {
      CollapseOfSlugText(s[1..]);
      if !IsSlugChar(s[0]) {
        assert DropRun(s[1..]) == s[1..];
      }
    }
  }

  /** Lower-casing leaves slug text alone. */
  lemma LowerOfSlugText(s: string)
    requires IsSlugText(s)
    ensures Text.Lower(s) == s
  {
  }

  /** `createSectionId` is idempotent: an id is its own id. */
  lemma SlugIdempotent(title: string)
    ensures Slug(Slug(title)) == Slug(title)
  {
    var id := Slug(title);
    SlugShape(title);
    LowerOfSlugText(id);
    CollapseOfSlugText(id);
  }
}
