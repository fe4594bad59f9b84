/** The breadcrumb trail (src/components/Breadcrumb.js): the pathname's segments,
    the path of each crumb, and its label. */
module Breadcrumb {
  import opened Common
  import opened Seqs
  import opened Text

  /** The piece is non-empty (`filter(Boolean)`). */
  function NonEmpty(): string -> bool {
    (piece: string) => piece != ""
  }

  /** `segments`: the pathname split on `/`, empty pieces dropped. */
  function Segments(pathname: string): (segs: seq<string>)
    ensures forall i :: 0 <= i < |segs| ==> segs[i] != "" && '/' !in segs[i]
    ensures IsSubsequence(segs, Split(pathname, '/'))
    ensures forall x :: x in segs <==> x in Split(pathname, '/') && x != ""
    ensures forall x :: x != "" ==> multiset(segs)[x] == multiset(Split(pathname, '/'))[x]
  {
    var pieces := Split(pathname, '/');
    var segs := Filter(pieces, NonEmpty());
    assert forall i :: 0 <= i < |segs| ==> segs[i] in pieces;
    segs
  }

  /** A pathname without `/` is one segment, or none when it is empty. */
  lemma SingleSegment(pathname: string)
    requires '/' !in pathname
    ensures Segments(pathname) == (if pathname == "" then [] else [pathname])
  {
    SplitNoSeparator(pathname, '/');
    var p := NonEmpty();
    assert Filter([pathname], p) == (if p(pathname) then [pathname] else []) + Filter([], p);
  }

  /** `paths`: crumb `i` links to `/` followed by the first `i + 1` segments joined
      with `/`. */
  function Paths(segs: seq<string>): (paths: seq<string>)
    ensures |paths| == |segs|
    ensures forall i :: 0 <= i < |segs| ==> |paths[i]| >= 1 && paths[i][0] == '/'
  {
    seq(|segs|, i requires 0 <= i < |segs| => "/" + Join(segs[..i + 1], '/'))
  }

  /** Each path extends the one before it by `/` and the next segment. */
  lemma PathsExtend(segs: seq<string>, i: nat)
    requires i + 1 < |segs|
    ensures Paths(segs)[i + 1] == Paths(segs)[i] + "/" + segs[i + 1]
    ensures Paths(segs)[i] <= Paths(segs)[i + 1]
  {
    assert segs[..i + 2] == segs[..i + 1] + [segs[i + 1]];
    JoinSnoc(segs[..i + 1], segs[i + 1], '/');
  }

  /** Every earlier crumb's path is a prefix of every later one's. */
  lemma {:induction false} PathsPrefix(segs: seq<string>, i: nat, j: nat)
    requires i <= j < |segs|
    ensures Paths(segs)[i] <= Paths(segs)[j]
    decreases j - i
  {
    if i < j {
      PathsExtend(segs, i);
      PathsPrefix(segs, i + 1, j);
    }
  }

  /** Splitting a crumb's path after its leading `/` gives back the segments it
      was made of. */
  lemma PathSplitsBack(pathname: string, i: nat)
    requires i < |Segments(pathname)|
    ensures var segs := Segments(pathname);
            Split(Paths(segs)[i][1..], '/') == segs[..i + 1]
  {
    var segs := Segments(pathname);
    assert Paths(segs)[i][1..] == Join(segs[..i + 1], '/');
    SplitJoin(segs[..i + 1], '/');
  }

  /** `[0-9a-fA-F-]`. */
  predicate IsIdChar(c: char) {
    '0' <= c <= '9' || 'a' <= c <= 'f' || 'A' <= c <= 'F' || c == '-'
  }

  /** `/^[0-9a-fA-F-]{36}$/`: the shape of a UUID. */
  predicate IsIdLike(segment: string) {
    |segment| == 36 && forall i :: 0 <= i < |segment| ==> IsIdChar(segment[i])
  }

  /** `projectTitle` is truthy: given and not empty. */
  predicate Truthy(title: Option<string>) {
    title.Some? && title.value != ""
  }

  /** The label of a segment: an id-like segment shows the project's title, or
      `...` while there is none; any other segment is capitalised. */
  function Label(segment: string, projectTitle: Option<string>): (shown: string)
    ensures IsIdLike(segment) && Truthy(projectTitle) ==> shown == projectTitle.value
    ensures IsIdLike(segment) && !Truthy(projectTitle) ==> shown == "..."
    ensures !IsIdLike(segment) ==> |shown| == |segment|
    ensures !IsIdLike(segment) && segment != "" ==>
              shown[0] == UpperChar(segment[0]) && shown[1..] == segment[1..]
  {
    if IsIdLike(segment) && Truthy(projectTitle) then projectTitle.value
    else if IsIdLike(segment) then "..."
    else if segment == "" then ""
    else [UpperChar(segment[0])] + segment[1..]
  }

  /** A segment whose first character is not a lower-case letter keeps its label
      unchanged, unless it has the shape of an id. */
  lemma CapitalisedUnchanged(segment: string, projectTitle: Option<string>)
    requires !IsIdLike(segment) && segment != "" && !('a' <= segment[0] <= 'z')
    ensures Label(segment, projectTitle) == segment
  {
  }

  /** One entry of the trail: a link, or the plain text of the current page. */
  datatype Crumb = Link(text: string, to: string) | Plain(text: string)

  /** The trail for the given segments: the Home link, then a link per segment
      but the last, which is plain text. */
  function Trail(segs: seq<string>, projectTitle: Option<string>): (trail: seq<Crumb>)
    ensures |trail| == |segs| + 1
    ensures trail[0] == Link("Home", "/")
    ensures forall i :: 1 <= i < |trail| ==> trail[i].text == Label(segs[i - 1], projectTitle)
    ensures forall i :: 0 <= i < |trail| ==> (trail[i].Plain? <==> i == |segs| && i > 0)
    ensures forall i :: 1 <= i < |segs| ==> trail[i].to == Paths(segs)[i - 1]
  {
    var paths := Paths(segs);
    var rest := seq(|segs|, i requires 0 <= i < |segs| =>
      if i == |segs| - 1 then Plain(Label(segs[i], projectTitle))
      else Link(Label(segs[i], projectTitle), paths[i]));
    assert forall i :: 1 <= i < |segs| + 1 ==> ([Link("Home", "/")] + rest)[i] == rest[i - 1];
    [Link("Home", "/")] + rest
  }

  /** The trail the component renders for a pathname. */
  function Crumbs(pathname: string, projectTitle: Option<string>): seq<Crumb> {
    Trail(Segments(pathname), projectTitle)
  }
}
