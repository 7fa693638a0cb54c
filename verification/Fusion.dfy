/**
 Patch fusion: several contributors' edits of one base tree, checked change by change for protected and overlapping
 paths and then written into a Git index. A tree maps the path of each file to its mode and object id.
 */
module Fusion {
  import opened Prelude
  import Seqs

  const MAX_CHANGED_FILES := 512
  const ABSENT := "000000"

  datatype Blob = Blob(mode: string, oid: string)

  type Tree = map<string, Blob>

  /** One record of `git diff-tree --raw`. */
  datatype RawChange = RawChange(oldMode: string, mode: string, oid: string, path: string)

  datatype Change = Change(path: string, mode: string, oid: string) {
    predicate Deletes() { mode == ABSENT }
    function Entry(): Option<Blob> { if Deletes() then None else Some(Blob(mode, oid)) }
  }

  datatype Error = NotCanonical(path: string) | NotRegular(path: string) | TooManyChanges | NoChanges
                 | ProtectedPath(path: string) | OverlappingPath(path: string)
                 | OutsideSubject(subject: string) | ConflictingEvidence(id: string)

  // ---- paths and trees ----

  /** q lies in the directory p. */
  predicate Under(p: string, q: string) { p + "/" <= q }

  predicate Overlap(p: string, q: string) { p == q || Under(q, p) || Under(p, q) }

  /** Paths overlap exactly when they are equal or one is the other followed by a slash and a rest. */
  lemma OverlapIsAncestry(p: string, q: string)
    ensures Overlap(p, q) <==> p == q || (exists rest :: q == p + "/" + rest) || (exists rest :: p == q + "/" + rest)
  {
    if Under(p, q) { assert q == p + "/" + q[|p| + 1..]; }
    if Under(q, p) { assert p == q + "/" + p[|q| + 1..]; }
  }

  /** No file of the tree is an ancestor directory of another. */
  ghost predicate WellFormed(t: Tree) { forall p, q :: p in t && q in t ==> !Under(p, q) }

  function At(t: Tree, p: string): Option<Blob> { if p in t then Some(t[p]) else None }

  // ---- the changes of one contributor ----

  predicate RegularOrAbsent(mode: string) { mode == ABSENT || mode == "100644" || mode == "100755" }

  predicate Regular(c: RawChange) { RegularOrAbsent(c.oldMode) && RegularOrAbsent(c.mode) }

  predicate Readable(canonical: string -> bool, c: RawChange) { canonical(c.path) && Regular(c) }

  function Parsed(c: RawChange): Change { Change(c.path, c.mode, c.oid) }

  function ParsedList(raw: seq<RawChange>): seq<Change> {
    seq(|raw|, k requires 0 <= k < |raw| => Parsed(raw[k]))
  }

  /** The list holds exactly the paths on which the output differs from the base, each with the output's entry. */
  ghost predicate IsDiff(base: Tree, output: Tree, changes: seq<Change>) {
    && (forall c :: c in changes ==> Differs(base, output, c.path) && c.Entry() == At(output, c.path))
    && (forall p :: Differs(base, output, p) ==> Touches(changes, p))
  }

  predicate Differs(base: Tree, output: Tree, p: string) { At(base, p) != At(output, p) }

  predicate Touches(changes: seq<Change>, p: string) { exists k :: 0 <= k < |changes| && changes[k].path == p }

  /** Git writes mode 000000 for a path that is not there, and keeps no entry under that mode. */
  function ModeAt(t: Tree, p: string): string { if p in t then t[p].mode else ABSENT }

  predicate GitModes(t: Tree) { forall p :: p in t ==> t[p].mode != ABSENT }

  /** What `git diff-tree --raw` prints: one record for each path that differs, with both modes and the output's object. */
  ghost predicate IsRawDiff(base: Tree, output: Tree, raw: seq<RawChange>) {
    && (forall k :: 0 <= k < |raw| ==> IsRecordOf(base, output, raw[k]))
    && (forall p :: Differs(base, output, p) ==> exists k :: 0 <= k < |raw| && raw[k].path == p)
    && (forall i, j :: 0 <= i < j < |raw| ==> raw[i].path != raw[j].path)
  }

  predicate IsRecordOf(base: Tree, output: Tree, c: RawChange) {
    && Differs(base, output, c.path)
    && c.oldMode == ModeAt(base, c.path) && c.mode == ModeAt(output, c.path)
    && (c.path in output ==> c.oid == output[c.path].oid)
  }

  lemma ParsedIsDiff(base: Tree, output: Tree, raw: seq<RawChange>)
    requires GitModes(output) && IsRawDiff(base, output, raw)
    ensures IsDiff(base, output, ParsedList(raw))
  {
    var changes := ParsedList(raw);
    forall c | c in changes ensures Differs(base, output, c.path) && c.Entry() == At(output, c.path) {
      var k :| 0 <= k < |raw| && changes[k] == c;
      assert IsRecordOf(base, output, raw[k]);
    }
    forall p | Differs(base, output, p) ensures Touches(changes, p) {
      var k :| 0 <= k < |raw| && raw[k].path == p;
      assert changes[k].path == p;
    }
  }

  predicate AllReadable(canonical: string -> bool, raw: seq<RawChange>) {
    0 < |raw| <= MAX_CHANGED_FILES && forall k :: 0 <= k < |raw| ==> Readable(canonical, raw[k])
  }

  /** Which records can be read: one to 512, canonical paths, regular files that may be new, gone or executable. */
  lemma ReadableExactlyWhen(canonical: string -> bool, raw: seq<RawChange>)
    ensures AllReadable(canonical, raw) <==>
              && 1 <= |raw| <= 512
              && forall c :: c in raw ==>
                   canonical(c.path) && {c.oldMode, c.mode} <= {"000000", "100644", "100755"}
  {
    forall c ensures Readable(canonical, c) <==> canonical(c.path) && {c.oldMode, c.mode} <= {"000000", "100644", "100755"} {
      assert c.oldMode in {c.oldMode, c.mode} && c.mode in {c.oldMode, c.mode};
    }
  }

  /** The refusal of the first record that cannot be read, or of the 513th, or of a list without any. */
  ghost predicate ReadRefusal(canonical: string -> bool, raw: seq<RawChange>, e: Error) {
    if raw == [] then e == NoChanges
    else exists k :: && 0 <= k < |raw| && k <= MAX_CHANGED_FILES
                     && (forall i :: 0 <= i < k ==> Readable(canonical, raw[i]))
                     && e == (if !canonical(raw[k].path) then NotCanonical(raw[k].path)
                              else if !Regular(raw[k]) then NotRegular(raw[k].path)
                              else TooManyChanges)
                     && (e == TooManyChanges ==> k == MAX_CHANGED_FILES)
  }

  /** The loop over raw records: the first record that is not acceptable decides which refusal is reported. */
  method Changes(canonical: string -> bool, raw: seq<RawChange>) returns (r: Result<seq<Change>, Error>)
    ensures r.Ok? <==> AllReadable(canonical, raw)
    ensures r.Ok? ==> r.value == ParsedList(raw)
    ensures r.Ok? ==> forall base, output :: GitModes(output) && IsRawDiff(base, output, raw) ==> IsDiff(base, output, r.value)
    ensures r.Err? ==> ReadRefusal(canonical, raw, r.error)
  {
    var changes: seq<Change> := [];
    var offset := 0;
    while offset < |raw|
      invariant 0 <= offset <= |raw| && offset <= MAX_CHANGED_FILES && |changes| == offset
      invariant forall k :: 0 <= k < offset ==> Readable(canonical, raw[k]) && changes[k] == Parsed(raw[k])
    {
      var c := raw[offset];
      if !canonical(c.path) { return Err(NotCanonical(c.path)); }
      if !RegularOrAbsent(c.oldMode) || !RegularOrAbsent(c.mode) { return Err(NotRegular(c.path)); }
      changes := changes + [Parsed(c)];
      if |changes| > MAX_CHANGED_FILES { return Err(TooManyChanges); }
      offset := offset + 1;
    }
    if changes == [] { return Err(NoChanges); }
    forall base, output | GitModes(output) && IsRawDiff(base, output, raw) ensures IsDiff(base, output, ParsedList(raw)) {
      ParsedIsDiff(base, output, raw);
    }
    assert changes == ParsedList(raw);
    return Ok(changes);
  }

  // ---- the merge loop ----

  function Flat<T>(lists: seq<seq<T>>): seq<T> {
    if lists == [] then [] else Flat(lists[..|lists| - 1]) + lists[|lists| - 1]
  }

  /** No protected path, and no two changes anywhere in the list that touch overlapping paths. */
  ghost predicate Acceptable(protectedPath: string -> bool, all: seq<Change>) {
    && (forall k :: 0 <= k < |all| ==> !protectedPath(all[k].path))
    && (forall i, j :: 0 <= i < j < |all| ==> !Overlap(all[j].path, all[i].path))
  }

  /** The refusal of the first change that is protected or overlaps an earlier one; protection is reported first. */
  ghost predicate FirstRefusal(protectedPath: string -> bool, all: seq<Change>, k: nat, e: Error) {
    && k < |all|
    && Acceptable(protectedPath, all[..k])
    && (if protectedPath(all[k].path) then e == ProtectedPath(all[k].path)
        else && e == OverlappingPath(all[k].path)
             && exists i :: 0 <= i < k && Overlap(all[k].path, all[i].path))
  }

  ghost predicate Unacceptable(protectedPath: string -> bool, all: seq<Change>, e: Error) {
    exists k :: FirstRefusal(protectedPath, all, k, e)
  }

  ghost predicate EditsOf(all: seq<Change>, edits: map<string, Change>) {
    && (forall k :: 0 <= k < |all| ==> all[k].path in edits && edits[all[k].path] == all[k])
    && (forall p :: p in edits ==> edits[p] in all && edits[p].path == p)
  }

  lemma {:induction false} FlatPrefix<T>(lists: seq<seq<T>>, i: nat)
    requires i <= |lists|
    ensures Flat(lists[..i]) <= Flat(lists)
    decreases |lists|
  {
    if i == |lists| {
      assert lists[..i] == lists;
    } else {
      FlatPrefix(lists[..|lists| - 1], i);
      assert lists[..|lists| - 1][..i] == lists[..i];
    }
  }

  lemma RefusalOfPrefix(protectedPath: string -> bool, part: seq<Change>, all: seq<Change>, k: nat, e: Error)
    requires part <= all && FirstRefusal(protectedPath, part, k, e)
    ensures FirstRefusal(protectedPath, all, k, e) && !Acceptable(protectedPath, all)
  {
    assert all[..k] == part[..k];
    assert forall i :: 0 <= i < |part| ==> part[i] == all[i];
  }

  /** The inner loop: the changes of one contributor against the edits collected from `before`. */
  method MergeContributor(
      protectedPath: string -> bool, start: map<string, Change>, changes: seq<Change>, ghost before: seq<Change>)
    returns (r: Result<map<string, Change>, Error>)
    requires Acceptable(protectedPath, before) && EditsOf(before, start)
    ensures r.Ok? ==> Acceptable(protectedPath, before + changes) && EditsOf(before + changes, r.value)
    ensures r.Err? ==> exists k :: FirstRefusal(protectedPath, before + changes, k, r.error)
  {
    var edits := start;
    var j := 0;
    assert before + changes[..0] == before;
    while j < |changes|
      invariant 0 <= j <= |changes|
      invariant Acceptable(protectedPath, before + changes[..j]) && EditsOf(before + changes[..j], edits)
    {
      var c := changes[j];
      ghost var done := before + changes[..j];
      assert before + changes[..j + 1] == done + [c];
      assert (before + changes)[..|done|] == done;
      if protectedPath(c.path) {
        assert FirstRefusal(protectedPath, before + changes, |done|, ProtectedPath(c.path));
        return Err(ProtectedPath(c.path));
      }
      if exists p :: p in edits && Overlap(c.path, p) {
        OverlapRefused(protectedPath, before + changes, done, c, edits);
        return Err(OverlappingPath(c.path));
      }
      EditAccepted(protectedPath, done, c, edits);
      edits := edits[c.path := c];
      j := j + 1;
    }
    assert changes[..j] == changes;
    return Ok(edits);
  }

  function ParsedAll(raws: seq<seq<RawChange>>): seq<seq<Change>> {
    seq(|raws|, i requires 0 <= i < |raws| => ParsedList(raws[i]))
  }

  /** Contributor i is the first that is refused: its records cannot be read, or one of its changes is not acceptable. */
  ghost predicate MergeRefusal(
      canonical: string -> bool, protectedPath: string -> bool, raws: seq<seq<RawChange>>, i: nat, e: Error)
  {
    && i < |raws|
    && (forall j :: 0 <= j < i ==> AllReadable(canonical, raws[j]))
    && Acceptable(protectedPath, Flat(ParsedAll(raws[..i])))
    && if !AllReadable(canonical, raws[i]) then ReadRefusal(canonical, raws[i], e)
       else Unacceptable(protectedPath, Flat(ParsedAll(raws[..i + 1])), e)
  }

  lemma ParsedOneMore(raws: seq<seq<RawChange>>, i: nat)
    requires i < |raws|
    ensures Flat(ParsedAll(raws[..i + 1])) == Flat(ParsedAll(raws[..i])) + ParsedList(raws[i])
    ensures Flat(ParsedAll(raws[..i + 1])) <= Flat(ParsedAll(raws))
  {
    assert ParsedAll(raws[..i + 1])[..i] == ParsedAll(raws[..i]);
    FlatPrefix(ParsedAll(raws), i + 1);
    assert ParsedAll(raws)[..i + 1] == ParsedAll(raws[..i + 1]);
  }

  /** Contributor by contributor: read its records, then check its changes against everything taken so far. */
  method Merge(canonical: string -> bool, protectedPath: string -> bool, raws: seq<seq<RawChange>>)
    returns (r: Result<map<string, Change>, Error>)
    ensures r.Ok? <==>
              && (forall i :: 0 <= i < |raws| ==> AllReadable(canonical, raws[i]))
              && Acceptable(protectedPath, Flat(ParsedAll(raws)))
    ensures r.Ok? ==> EditsOf(Flat(ParsedAll(raws)), r.value)
    ensures r.Err? ==> exists i :: MergeRefusal(canonical, protectedPath, raws, i, r.error)
  {
    var edits: map<string, Change> := map[];
    var i := 0;
    while i < |raws|
      invariant 0 <= i <= |raws| && forall j :: 0 <= j < i ==> AllReadable(canonical, raws[j])
      invariant Acceptable(protectedPath, Flat(ParsedAll(raws[..i]))) && EditsOf(Flat(ParsedAll(raws[..i])), edits)
    {
      ghost var before := Flat(ParsedAll(raws[..i]));
      var changes := Changes(canonical, raws[i]);
      if changes.Err? {
        assert MergeRefusal(canonical, protectedPath, raws, i, changes.error);
        return Err(changes.error);
      }
      var merged := MergeContributor(protectedPath, edits, changes.value, before);
      ParsedOneMore(raws, i);
      if merged.Err? {
        ghost var k :| FirstRefusal(protectedPath, before + changes.value, k, merged.error);
        RefusalOfPrefix(protectedPath, before + changes.value, Flat(ParsedAll(raws)), k, merged.error);
        assert MergeRefusal(canonical, protectedPath, raws, i, merged.error);
        return merged;
      }
      edits := merged.value;
      i := i + 1;
    }
    assert raws[..i] == raws;
    return Ok(edits);
  }

  lemma OverlapRefused(protectedPath: string -> bool, all: seq<Change>, done: seq<Change>, c: Change, edits: map<string, Change>)
    requires |done| < |all| && all[..|done|] == done && all[|done|] == c
    requires Acceptable(protectedPath, done) && EditsOf(done, edits)
    requires !protectedPath(c.path) && exists p :: p in edits && Overlap(c.path, p)
    ensures FirstRefusal(protectedPath, all, |done|, OverlappingPath(c.path)) && !Acceptable(protectedPath, all)
  {
    var p :| p in edits && Overlap(c.path, p);
    var i :| 0 <= i < |done| && done[i] == edits[p];
    assert all[i] == all[..|done|][i];
    assert Overlap(all[|done|].path, all[i].path);
  }

  lemma EditAccepted(protectedPath: string -> bool, done: seq<Change>, c: Change, edits: map<string, Change>)
    requires Acceptable(protectedPath, done) && EditsOf(done, edits)
    requires !protectedPath(c.path) && !exists p :: p in edits && Overlap(c.path, p)
    ensures Acceptable(protectedPath, done + [c]) && EditsOf(done + [c], edits[c.path := c])
  {
    var all := done + [c];
    assert c.path in edits ==> Overlap(c.path, c.path);
    forall i, j | 0 <= i < j < |all| ensures !Overlap(all[j].path, all[i].path) {
      if j == |done| { assert all[i].path in edits; }
    }
    assert all[|done|] == c;
    forall p | p in edits && p != c.path ensures edits[p] in all { }
  }

  // ---- writing the edits into an index that holds the base ----

  /**
   One record given to `git update-index --index-info`: mode 000000 removes the path; any other mode adds it, and
   adding replaces whatever stands in the way, both files below the path and files that are an ancestor of it.
   */
  function IndexApply(t: Tree, c: Change): Tree {
    if c.Deletes() then map p | p in t && p != c.path :: t[p]
    else (map p | p in t && !Overlap(p, c.path) :: t[p])[c.path := Blob(c.mode, c.oid)]
  }

  function IndexApplyAll(t: Tree, order: seq<Change>): Tree {
    if order == [] then t else IndexApply(IndexApplyAll(t, order[..|order| - 1]), order[|order| - 1])
  }

  ghost predicate Outputs(base: Tree, outputs: seq<Tree>, contributors: seq<seq<Change>>) {
    && |outputs| == |contributors|
    && WellFormed(base)
    && forall i :: 0 <= i < |outputs| ==> WellFormed(outputs[i]) && IsDiff(base, outputs[i], contributors[i])
  }

  /** The tree a fusion is meant to be: the base, except at the changed paths, where it has the changed entry. */
  ghost predicate IsFusion(base: Tree, all: seq<Change>, t: Tree) {
    && (forall c :: c in all ==> At(t, c.path) == c.Entry())
    && (forall p :: !Touches(all, p) ==> At(t, p) == At(base, p))
  }

  lemma FusionIsUnique(base: Tree, all: seq<Change>, t: Tree, u: Tree)
    requires IsFusion(base, all, t) && IsFusion(base, all, u)
    ensures t == u
  {
    forall p ensures At(t, p) == At(u, p) {
      if Touches(all, p) {
        var k :| 0 <= k < |all| && all[k].path == p;
        assert all[k] in all;
      }
    }
    assert forall p :: p in t <==> At(t, p).Some?;
    assert forall p :: p in u <==> At(u, p).Some?;
    assert forall p :: p in t ==> At(t, p) == Some(t[p]);
    assert forall p :: p in u ==> At(u, p) == Some(u[p]);
  }

  lemma {:induction false} FlatMember<T>(lists: seq<seq<T>>, x: T) returns (i: nat)
    requires x in Flat(lists)
    ensures i < |lists| && x in lists[i]
  {
    var last := |lists| - 1;
    if x in lists[last] { i := last; } else { i := FlatMember(lists[..last], x); }
  }

  lemma {:induction false} FlatHolds<T>(lists: seq<seq<T>>, i: nat, x: T)
    requires i < |lists| && x in lists[i]
    ensures x in Flat(lists)
    decreases |lists|
  {
    if i < |lists| - 1 { FlatHolds(lists[..|lists| - 1], i, x); }
  }

  /** An added path of one contributor never stands above or below a file of the base that no contributor changed. */
  lemma AdditionMeetsNoUntouchedFile(
      base: Tree, outputs: seq<Tree>, contributors: seq<seq<Change>>, c: Change, q: string)
    requires Outputs(base, outputs, contributors)
    requires c in Flat(contributors) && !c.Deletes()
    requires q in base && !Touches(Flat(contributors), q)
    ensures !Under(c.path, q) && !Under(q, c.path)
  {
    var i := FlatMember(contributors, c);
    if Touches(contributors[i], q) {
      var k :| 0 <= k < |contributors[i]| && contributors[i][k].path == q;
      FlatHolds(contributors, i, contributors[i][k]);
    }
    assert At(base, q) == At(outputs[i], q);
    assert At(outputs[i], c.path) == c.Entry();
    assert q in outputs[i] && c.path in outputs[i];
  }

  /** Distinct places of the list hold non-overlapping paths, in both directions. */
  lemma ApartInAcceptable(protectedPath: string -> bool, all: seq<Change>, c: Change, d: Change)
    requires Acceptable(protectedPath, all) && c in all && d in all && c != d
    ensures !Overlap(c.path, d.path)
  {
    var i :| 0 <= i < |all| && all[i] == c;
    var j :| 0 <= j < |all| && all[j] == d;
    if i < j { assert !Overlap(all[j].path, all[i].path); } else { assert !Overlap(all[i].path, all[j].path); }
  }

  /** Whatever part of an accepted fusion has been applied, no file is an ancestor of another. */
  lemma PartIsWellFormed(
      protectedPath: string -> bool, base: Tree, outputs: seq<Tree>, contributors: seq<seq<Change>>,
      part: seq<Change>, t: Tree)
    requires Outputs(base, outputs, contributors) && Acceptable(protectedPath, Flat(contributors))
    requires (forall c :: c in part ==> c in Flat(contributors)) && IsFusion(base, part, t)
    ensures WellFormed(t)
    ensures forall c, q :: c in Flat(contributors) && !c.Deletes() && q in t && q != c.path ==> !Overlap(q, c.path)
  {
    var all := Flat(contributors);
    forall c, q | c in all && !c.Deletes() && q in t && q != c.path ensures !Overlap(q, c.path) {
      AdditionIsApart(protectedPath, base, outputs, contributors, part, t, c, q);
    }
    forall p, q | p in t && q in t ensures !Under(p, q) {
      if Touches(part, p) {
        var k :| 0 <= k < |part| && part[k].path == p;
        assert part[k] in part && At(t, p) == part[k].Entry();
        assert q != p ==> !Overlap(q, p);
      } else if Touches(part, q) {
        var k :| 0 <= k < |part| && part[k].path == q;
        assert part[k] in part && At(t, q) == part[k].Entry();
        assert p != q ==> !Overlap(p, q);
      } else {
        assert At(t, p) == At(base, p) && At(t, q) == At(base, q);
      }
    }
  }

  lemma AdditionIsApart(
      protectedPath: string -> bool, base: Tree, outputs: seq<Tree>, contributors: seq<seq<Change>>,
      part: seq<Change>, t: Tree, c: Change, q: string)
    requires Outputs(base, outputs, contributors) && Acceptable(protectedPath, Flat(contributors))
    requires (forall d :: d in part ==> d in Flat(contributors)) && IsFusion(base, part, t)
    requires c in Flat(contributors) && !c.Deletes() && q in t && q != c.path
    ensures !Overlap(q, c.path)
  {
    var all := Flat(contributors);
    if Touches(all, q) {
      var k :| 0 <= k < |all| && all[k].path == q;
      ApartInAcceptable(protectedPath, all, all[k], c);
    } else {
      PartTouches(part, all, q);
      assert At(t, q) == At(base, q);
      AdditionMeetsNoUntouchedFile(base, outputs, contributors, c, q);
    }
  }

  lemma PartTouches(part: seq<Change>, all: seq<Change>, p: string)
    requires forall c :: c in part ==> c in all
    ensures Touches(part, p) ==> Touches(all, p)
  {
    if Touches(part, p) {
      var k :| 0 <= k < |part| && part[k].path == p;
      assert part[k] in part;
      var m :| 0 <= m < |all| && all[m] == part[k];
    }
  }

  /** One more record: nothing stands in its way, so only its own path changes. */
  lemma ApplyExtendsFusion(base: Tree, part: seq<Change>, t: Tree, c: Change)
    requires IsFusion(base, part, t)
    requires forall d :: d in part ==> d.path != c.path
    requires !c.Deletes() ==> forall q :: q in t && q != c.path ==> !Overlap(q, c.path)
    ensures IsFusion(base, part + [c], IndexApply(t, c))
  {
    var u, all := IndexApply(t, c), part + [c];
    assert Overlap(c.path, c.path);
    assert forall p :: p != c.path ==> At(u, p) == At(t, p);
    assert At(u, c.path) == c.Entry();
    assert all[|part|] == c;
    forall p | !Touches(all, p) ensures At(u, p) == At(base, p) {
      PartTouches(part, all, p);
    }
  }

  lemma {:induction false} ApplyAllIsFusion(
      protectedPath: string -> bool, base: Tree, outputs: seq<Tree>, contributors: seq<seq<Change>>,
      order: seq<Change>, rest: multiset<Change>)
    requires Outputs(base, outputs, contributors) && Acceptable(protectedPath, Flat(contributors))
    requires multiset(order) + rest == multiset(Flat(contributors))
    ensures IsFusion(base, order, IndexApplyAll(base, order))
  {
    var all := Flat(contributors);
    if order == [] { return; }
    var part, c := order[..|order| - 1], order[|order| - 1];
    assert order == part + [c];
    ApplyAllIsFusion(protectedPath, base, outputs, contributors, part, rest + multiset{c});
    forall d | d in order ensures d in all {
      assert d in multiset(order) && d in multiset(all);
    }
    var t := IndexApplyAll(base, part);
    PartIsWellFormed(protectedPath, base, outputs, contributors, part, t);
    forall d | d in part ensures d.path != c.path {
      assert multiset(order) <= multiset(all);
      OrderIsApart(protectedPath, all, order, d);
    }
    ApplyExtendsFusion(base, part, t, c);
  }

  lemma OrderIsApart(protectedPath: string -> bool, all: seq<Change>, order: seq<Change>, d: Change)
    requires Acceptable(protectedPath, all) && multiset(order) <= multiset(all)
    requires order != [] && d in order[..|order| - 1]
    ensures d.path != order[|order| - 1].path
  {
    var i :| 0 <= i < |order| - 1 && order[i] == d;
    Seqs.TwoPlacesInWhole(order, all, i, |order| - 1);
    var a, b :| 0 <= a < |all| && 0 <= b < |all| && a != b && all[a] == order[i] && all[b] == order[|order| - 1];
    if a < b { assert !Overlap(all[b].path, all[a].path); } else { assert !Overlap(all[a].path, all[b].path); }
  }

  /**
   An accepted fusion, written into the index in whatever order: on each contributor's changed paths the tree has
   that contributor's output, everywhere else it has the base, and no file in it is an ancestor of another.
   */
  lemma FusedTreeIsEveryContributorsOutput(
      protectedPath: string -> bool, base: Tree, outputs: seq<Tree>, contributors: seq<seq<Change>>,
      order: seq<Change>, t: Tree)
    requires Outputs(base, outputs, contributors) && Acceptable(protectedPath, Flat(contributors))
    requires multiset(order) == multiset(Flat(contributors)) && t == IndexApplyAll(base, order)
    ensures forall i, p :: 0 <= i < |outputs| && At(base, p) != At(outputs[i], p) ==> At(t, p) == At(outputs[i], p)
    ensures forall p :: (forall i :: 0 <= i < |outputs| ==> At(base, p) == At(outputs[i], p)) ==> At(t, p) == At(base, p)
    ensures WellFormed(t)
    ensures forall p :: At(t, p) != At(base, p) ==> !protectedPath(p)
  {
    var all := Flat(contributors);
    ApplyAllIsFusion(protectedPath, base, outputs, contributors, order, multiset{});
    SameMembers(order, all);
    PartIsWellFormed(protectedPath, base, outputs, contributors, order, t);
    forall i, p | 0 <= i < |outputs| && At(base, p) != At(outputs[i], p)
      ensures At(t, p) == At(outputs[i], p)
    {
      FusedOnChangedPath(base, outputs, contributors, order, t, i, p);
    }
    forall p | At(t, p) != At(base, p)
      ensures !protectedPath(p) && exists i :: 0 <= i < |outputs| && At(base, p) != At(outputs[i], p)
    {
      FusedChangesOnlyWhatChanged(protectedPath, base, outputs, contributors, order, t, p);
    }
  }

  lemma FusedOnChangedPath(
      base: Tree, outputs: seq<Tree>, contributors: seq<seq<Change>>, order: seq<Change>, t: Tree, i: nat, p: string)
    requires Outputs(base, outputs, contributors) && (forall c :: c in Flat(contributors) ==> c in order)
    requires IsFusion(base, order, t) && i < |outputs| && At(base, p) != At(outputs[i], p)
    ensures At(t, p) == At(outputs[i], p)
  {
    assert Differs(base, outputs[i], p);
    var k :| 0 <= k < |contributors[i]| && contributors[i][k].path == p;
    FlatHolds(contributors, i, contributors[i][k]);
    assert contributors[i][k] in order;
  }

  lemma FusedChangesOnlyWhatChanged(
      protectedPath: string -> bool, base: Tree, outputs: seq<Tree>, contributors: seq<seq<Change>>,
      order: seq<Change>, t: Tree, p: string)
    requires Outputs(base, outputs, contributors) && Acceptable(protectedPath, Flat(contributors))
    requires (forall c :: c in order ==> c in Flat(contributors)) && IsFusion(base, order, t)
    requires At(t, p) != At(base, p)
    ensures !protectedPath(p) && exists i :: 0 <= i < |outputs| && At(base, p) != At(outputs[i], p)
  {
    var all := Flat(contributors);
    assert Touches(order, p);
    var k :| 0 <= k < |order| && order[k].path == p;
    assert order[k] in all;
    var i := FlatMember(contributors, order[k]);
    assert At(base, p) != At(outputs[i], p);
    var m :| 0 <= m < |all| && all[m] == order[k];
  }

  lemma SameMembers(p: seq<Change>, q: seq<Change>)
    requires multiset(p) == multiset(q)
    ensures forall c :: c in p <==> c in q
  {
    assert forall c :: c in p <==> c in multiset(p);
    assert forall c :: c in q <==> c in multiset(q);
  }

  /** The records written to the index: each edit once, in whatever order (the program sorts them by path). */
  ghost predicate Records(edits: map<string, Change>, order: seq<Change>) {
    && (forall i, j :: 0 <= i < j < |order| ==> order[i] != order[j])
    && (forall c :: c in order <==> c.path in edits && edits[c.path] == c)
  }

  lemma RecordsAreTheChanges(protectedPath: string -> bool, all: seq<Change>, edits: map<string, Change>, order: seq<Change>)
    requires Acceptable(protectedPath, all) && EditsOf(all, edits) && Records(edits, order)
    ensures multiset(order) == multiset(all)
  {
    forall i, j | 0 <= i < j < |all| ensures all[i] != all[j] {
      assert !Overlap(all[j].path, all[i].path);
    }
    Seqs.SameMembersPermute(order, all);
  }

  method WriteIndex(base: Tree, order: seq<Change>) returns (t: Tree)
    ensures t == IndexApplyAll(base, order)
  {
    t := base;
    for i := 0 to |order|
      invariant t == IndexApplyAll(base, order[..i])
    {
      assert order[..i + 1][..i] == order[..i];
      t := IndexApply(t, order[i]);
    }
    assert order[..|order|] == order;
  }

  // ---- from raw records to the tree ----

  /** Each contributor's records are what git prints for its output. */
  ghost predicate RawOutputs(base: Tree, outputs: seq<Tree>, raws: seq<seq<RawChange>>) {
    && |outputs| == |raws| && WellFormed(base)
    && forall i :: 0 <= i < |outputs| ==>
         WellFormed(outputs[i]) && GitModes(outputs[i]) && IsRawDiff(base, outputs[i], raws[i])
  }

  lemma RawOutputsAreOutputs(base: Tree, outputs: seq<Tree>, raws: seq<seq<RawChange>>)
    requires RawOutputs(base, outputs, raws)
    ensures Outputs(base, outputs, ParsedAll(raws))
  {
    forall i | 0 <= i < |outputs| ensures IsDiff(base, outputs[i], ParsedAll(raws)[i]) {
      ParsedIsDiff(base, outputs[i], raws[i]);
    }
  }

  /** The outputs change no protected path, and no path that one of them changes overlaps another changed path. */
  ghost predicate Compatible(protectedPath: string -> bool, base: Tree, outputs: seq<Tree>) {
    && (forall i, p :: 0 <= i < |outputs| && Differs(base, outputs[i], p) ==> !protectedPath(p))
    && (forall i, j, p, q ::
          0 <= i < |outputs| && 0 <= j < |outputs| && (i != j || p != q)
          && Differs(base, outputs[i], p) && Differs(base, outputs[j], q)
          ==> !Overlap(p, q))
  }

  lemma {:induction false} FlatTwice<T>(lists: seq<seq<T>>, i: nat, j: nat, x: T)
    requires i < j < |lists| && x in lists[i] && x in lists[j]
    ensures multiset(Flat(lists))[x] >= 2
    decreases |lists|
  {
    var n := |lists| - 1;
    assert multiset(Flat(lists)) == multiset(Flat(lists[..n])) + multiset(lists[n]);
    if j == n {
      FlatHolds(lists[..n], i, x);
      assert x in multiset(Flat(lists[..n])) && x in multiset(lists[n]);
    } else {
      FlatTwice(lists[..n], i, j, x);
    }
  }

  /** Two places of the flat list lie in two different lists, or at two places of the same one. */
  lemma {:induction false} FlatPlaces<T>(lists: seq<seq<T>>, a: nat, b: nat) returns (i: nat, j: nat, k: nat, l: nat)
    requires a < b < |Flat(lists)|
    ensures i < |lists| && j < |lists| && k < |lists[i]| && l < |lists[j]|
    ensures lists[i][k] == Flat(lists)[a] && lists[j][l] == Flat(lists)[b] && (i != j || k != l)
  {
    var n := |lists| - 1;
    var front := Flat(lists[..n]);
    if b < |front| {
      i, j, k, l := FlatPlaces(lists[..n], a, b);
    } else if a < |front| {
      assert front[a] in front;
      i := FlatMember(lists[..n], front[a]);
      k :| 0 <= k < |lists[i]| && lists[i][k] == front[a];
      j, l := n, b - |front|;
    } else {
      i, j, k, l := n, n, a - |front|, b - |front|;
    }
  }

  lemma ChangeAt(base: Tree, output: Tree, raw: seq<RawChange>, p: string) returns (c: Change)
    requires IsRawDiff(base, output, raw) && Differs(base, output, p)
    ensures c in ParsedList(raw) && c.path == p
  {
    var k :| 0 <= k < |raw| && raw[k].path == p;
    c := ParsedList(raw)[k];
  }

  lemma AcceptableHoldsOnce(protectedPath: string -> bool, all: seq<Change>, c: Change)
    requires Acceptable(protectedPath, all)
    ensures multiset(all)[c] <= 1
  {
    forall i, j | 0 <= i < j < |all| ensures all[i] != all[j] { assert !Overlap(all[j].path, all[i].path); }
    Seqs.DistinctCounts(all, c);
  }

  lemma AcceptableIsCompatible(protectedPath: string -> bool, base: Tree, outputs: seq<Tree>, raws: seq<seq<RawChange>>)
    requires RawOutputs(base, outputs, raws) && Acceptable(protectedPath, Flat(ParsedAll(raws)))
    ensures Compatible(protectedPath, base, outputs)
  {
    var lists, all := ParsedAll(raws), Flat(ParsedAll(raws));
    forall i, p | 0 <= i < |outputs| && Differs(base, outputs[i], p) ensures !protectedPath(p) {
      var c := ChangeAt(base, outputs[i], raws[i], p);
      FlatHolds(lists, i, c);
      var k :| 0 <= k < |all| && all[k] == c;
    }
    forall i, j, p, q | && 0 <= i < |outputs| && 0 <= j < |outputs| && (i != j || p != q)
                        && Differs(base, outputs[i], p) && Differs(base, outputs[j], q)
      ensures !Overlap(p, q)
    {
      var c := ChangeAt(base, outputs[i], raws[i], p);
      var d := ChangeAt(base, outputs[j], raws[j], q);
      FlatHolds(lists, i, c);
      FlatHolds(lists, j, d);
      if c == d {
        FlatTwice(lists, if i < j then i else j, if i < j then j else i, c);
        AcceptableHoldsOnce(protectedPath, all, c);
        assert false;
      } else {
        ApartInAcceptable(protectedPath, all, c, d);
      }
    }
  }

  lemma CompatibleIsAcceptable(protectedPath: string -> bool, base: Tree, outputs: seq<Tree>, raws: seq<seq<RawChange>>)
    requires RawOutputs(base, outputs, raws) && Compatible(protectedPath, base, outputs)
    ensures Acceptable(protectedPath, Flat(ParsedAll(raws)))
  {
    var lists, all := ParsedAll(raws), Flat(ParsedAll(raws));
    forall a | 0 <= a < |all| ensures !protectedPath(all[a].path) {
      var i := FlatMember(lists, all[a]);
      var k :| 0 <= k < |lists[i]| && lists[i][k] == all[a];
      assert IsRecordOf(base, outputs[i], raws[i][k]);
    }
    forall a, b | 0 <= a < b < |all| ensures !Overlap(all[b].path, all[a].path) {
      var i, j, k, l := FlatPlaces(lists, a, b);
      assert IsRecordOf(base, outputs[i], raws[i][k]) && IsRecordOf(base, outputs[j], raws[j][l]);
      assert i == j ==> raws[i][k].path != raws[j][l].path;
      assert !Overlap(raws[j][l].path, raws[i][k].path);
    }
  }

  /**
   From what git prints to the tree. A tree comes out if and only if every contributor's records can be read and the
   outputs are compatible; it then has every output on the paths that output changed, and the base everywhere else.
   */
  method Propose(
      canonical: string -> bool, protectedPath: string -> bool, base: Tree, ghost outputs: seq<Tree>,
      raws: seq<seq<RawChange>>, listing: map<string, Change> -> seq<Change>)
    returns (r: Result<Tree, Error>)
    requires RawOutputs(base, outputs, raws)
    requires forall edits :: Records(edits, listing(edits))
    ensures r.Ok? <==>
              && (forall i :: 0 <= i < |raws| ==> AllReadable(canonical, raws[i]))
              && Compatible(protectedPath, base, outputs)
    ensures r.Ok? ==>
              && WellFormed(r.value)
              && (forall p :: At(r.value, p) != At(base, p) ==> !protectedPath(p))
              && (forall i, p :: 0 <= i < |outputs| && At(base, p) != At(outputs[i], p) ==>
                    At(r.value, p) == At(outputs[i], p))
              && (forall p :: (forall i :: 0 <= i < |outputs| ==> At(base, p) == At(outputs[i], p)) ==>
                    At(r.value, p) == At(base, p))
    ensures r.Err? ==> exists i :: MergeRefusal(canonical, protectedPath, raws, i, r.error)
  {
    var merged := Merge(canonical, protectedPath, raws);
    if Compatible(protectedPath, base, outputs) { CompatibleIsAcceptable(protectedPath, base, outputs, raws); }
    if merged.Err? { return Err(merged.error); }
    AcceptableIsCompatible(protectedPath, base, outputs, raws);
    RawOutputsAreOutputs(base, outputs, raws);
    var order := listing(merged.value);
    var tree := WriteIndex(base, order);
    RecordsAreTheChanges(protectedPath, Flat(ParsedAll(raws)), merged.value, order);
    FusedTreeIsEveryContributorsOutput(protectedPath, base, outputs, ParsedAll(raws), order, tree);
    return Ok(tree);
  }

  // ---- the order of the contributors does not matter ----

  lemma {:induction false} FlatRemoved<T>(lists: seq<seq<T>>, i: nat)
    requires i < |lists|
    ensures multiset(Flat(lists)) == multiset(Flat(lists[..i] + lists[i + 1..])) + multiset(lists[i])
    decreases |lists|
  {
    var n := |lists| - 1;
    var without := lists[..i] + lists[i + 1..];
    if i == n {
      assert without == lists[..n];
    } else {
      FlatRemoved(lists[..n], i);
      assert without[..n - 1] == lists[..n][..i] + lists[..n][i + 1..];
      assert without[n - 1] == lists[n];
    }
  }

  lemma SameWithoutOne<T>(p: seq<T>, q: seq<T>, i: nat)
    requires multiset(p) == multiset(q) && p != [] && i < |q| && q[i] == p[|p| - 1]
    ensures multiset(p[..|p| - 1]) == multiset(q[..i] + q[i + 1..])
  {
    Seqs.WithoutOne(q, i);
    assert p == p[..|p| - 1] + [p[|p| - 1]];
    assert multiset(p[..|p| - 1]) == multiset(p) - multiset{q[i]};
    assert multiset(q[..i] + q[i + 1..]) == multiset(q) - multiset{q[i]};
  }

  lemma {:induction false} FlatOfPermutation<T>(lists: seq<seq<T>>, other: seq<seq<T>>)
    requires multiset(lists) == multiset(other)
    ensures multiset(Flat(lists)) == multiset(Flat(other))
    decreases |lists|
  {
    assert |lists| == |multiset(lists)| == |multiset(other)| == |other|;
    if lists != [] {
      var n := |lists| - 1;
      Seqs.InMultiset(lists, other, n);
      var i :| 0 <= i < |other| && other[i] == lists[n];
      var without := other[..i] + other[i + 1..];
      SameWithoutOne(lists, other, i);
      FlatOfPermutation(lists[..n], without);
      FlatRemoved(other, i);
      FlatRemoved(lists, n);
    }
  }

  lemma AcceptablePermutes(protectedPath: string -> bool, all: seq<Change>, other: seq<Change>)
    requires multiset(all) == multiset(other) && Acceptable(protectedPath, all)
    ensures Acceptable(protectedPath, other)
  {
    SameMembers(all, other);
    forall k | 0 <= k < |other| ensures !protectedPath(other[k].path) {
      assert other[k] in all;
    }
    forall i, j | 0 <= i < j < |other| ensures !Overlap(other[j].path, other[i].path) {
      Seqs.TwoPlacesInWhole(other, all, i, j);
      var a, b :| 0 <= a < |all| && 0 <= b < |all| && a != b && all[a] == other[i] && all[b] == other[j];
      if a < b { assert !Overlap(all[b].path, all[a].path); } else { assert !Overlap(all[a].path, all[b].path); }
    }
  }

  /** Every order of the contributors gives the same verdict, and, when accepted, the same edits. */
  lemma VerdictAndEditsIgnoreTheOrder(
      protectedPath: string -> bool, contributors: seq<seq<Change>>, other: seq<seq<Change>>,
      edits: map<string, Change>, edits': map<string, Change>)
    requires multiset(contributors) == multiset(other)
    ensures Acceptable(protectedPath, Flat(contributors)) <==> Acceptable(protectedPath, Flat(other))
    ensures EditsOf(Flat(contributors), edits) && EditsOf(Flat(other), edits') ==> edits == edits'
  {
    var all, all' := Flat(contributors), Flat(other);
    FlatOfPermutation(contributors, other);
    if Acceptable(protectedPath, all) { AcceptablePermutes(protectedPath, all, all'); }
    if Acceptable(protectedPath, all') { AcceptablePermutes(protectedPath, all', all); }
    SameMembers(all, all');
    if EditsOf(all, edits) && EditsOf(all', edits') {
      forall p | p in edits ensures p in edits' && edits'[p] == edits[p] {
        assert edits[p] in all';
      }
      forall p | p in edits' ensures p in edits {
        assert edits'[p] in all;
      }
    }
  }

  /** And every order of the contributors, each with its records written in whatever order, gives the same tree. */
  lemma TreeIgnoresTheOrder(
      protectedPath: string -> bool, base: Tree, outputs: seq<Tree>, contributors: seq<seq<Change>>,
      permuted: seq<seq<Change>>, order: seq<Change>, other: seq<Change>)
    requires Outputs(base, outputs, contributors) && Acceptable(protectedPath, Flat(contributors))
    requires multiset(permuted) == multiset(contributors)
    requires multiset(order) == multiset(Flat(contributors)) && multiset(other) == multiset(Flat(permuted))
    ensures IndexApplyAll(base, order) == IndexApplyAll(base, other)
  {
    FlatOfPermutation(contributors, permuted);
    ApplyAllIsFusion(protectedPath, base, outputs, contributors, order, multiset{});
    ApplyAllIsFusion(protectedPath, base, outputs, contributors, other, multiset{});
    SameMembers(order, other);
    forall p ensures Touches(order, p) <==> Touches(other, p) {
      if Touches(order, p) {
        var k :| 0 <= k < |order| && order[k].path == p;
        assert order[k] in other;
      }
      if Touches(other, p) {
        var k :| 0 <= k < |other| && other[k].path == p;
        assert other[k] in order;
      }
    }
    FusionIsUnique(base, order, IndexApplyAll(base, order), IndexApplyAll(base, other));
  }

  // ---- the evidence ledger ----

  datatype Payload = Payload(
    id: string, kind: string, statement: string, subject: string, artifact: Option<string>, sources: set<string>)

  datatype Observation = Observation(producer: string, payload: Payload)

  datatype Evidence = Evidence(payload: Payload, producers: set<string>)

  ghost predicate Consistent(heads: set<string>, obs: seq<Observation>) {
    && (forall k :: 0 <= k < |obs| ==> obs[k].payload.subject in heads)
    && (forall i, j :: 0 <= i < j < |obs| && obs[i].payload.id == obs[j].payload.id ==> obs[i].payload == obs[j].payload)
  }

  /** One entry per evidence identity: its one payload and exactly the producers that reported it. */
  ghost predicate LedgerOf(obs: seq<Observation>, ledger: map<string, Evidence>) {
    && (forall k :: 0 <= k < |obs| ==> obs[k].payload.id in ledger && ledger[obs[k].payload.id].payload == obs[k].payload)
    && (forall id :: id in ledger ==> ledger[id].payload.id == id && ledger[id].producers != {})
    && (forall id, who :: id in ledger ==> (who in ledger[id].producers <==> Observation(who, ledger[id].payload) in obs))
  }

  method BuildLedger(heads: set<string>, obs: seq<Observation>) returns (r: Result<map<string, Evidence>, Error>)
    ensures r.Ok? <==> Consistent(heads, obs)
    ensures r.Ok? ==> LedgerOf(obs, r.value)
    ensures r.Err? ==> exists k :: && 0 <= k < |obs| && Consistent(heads, obs[..k])
                                  && (if obs[k].payload.subject !in heads then r.error == OutsideSubject(obs[k].payload.subject)
                                      else r.error == ConflictingEvidence(obs[k].payload.id))
  {
    var ledger: map<string, Evidence> := map[];
    var k := 0;
    while k < |obs|
      invariant 0 <= k <= |obs|
      invariant Consistent(heads, obs[..k]) && LedgerOf(obs[..k], ledger)
    {
      var o := obs[k];
      var id := o.payload.id;
      if o.payload.subject !in heads { return Err(OutsideSubject(o.payload.subject)); }
      if id in ledger && ledger[id].payload != o.payload {
        ConflictRefused(heads, obs, k, ledger);
        return Err(ConflictingEvidence(id));
      }
      var producers := (if id in ledger then ledger[id].producers else {}) + {o.producer};
      assert obs[..k + 1] == obs[..k] + [o];
      ObservationConsistent(heads, obs[..k], o, ledger);
      ObservationNoted(obs[..k], o, ledger, Noted(ledger, o));
      ledger := ledger[id := Evidence(o.payload, producers)];
      k := k + 1;
    }
    assert obs[..k] == obs;
    return Ok(ledger);
  }

  lemma ConflictRefused(heads: set<string>, obs: seq<Observation>, k: nat, ledger: map<string, Evidence>)
    requires k < |obs| && LedgerOf(obs[..k], ledger)
    requires obs[k].payload.id in ledger && ledger[obs[k].payload.id].payload != obs[k].payload
    ensures !Consistent(heads, obs)
  {
    var old_ := ledger[obs[k].payload.id];
    var who :| who in old_.producers;
    var i :| 0 <= i < k && obs[..k][i] == Observation(who, old_.payload);
    assert obs[i].payload.id == obs[k].payload.id && obs[i].payload != obs[k].payload;
  }

  function Noted(ledger: map<string, Evidence>, o: Observation): map<string, Evidence> {
    var id := o.payload.id;
    ledger[id := Evidence(o.payload, (if id in ledger then ledger[id].producers else {}) + {o.producer})]
  }

  lemma ObservationConsistent(heads: set<string>, obs: seq<Observation>, o: Observation, ledger: map<string, Evidence>)
    requires Consistent(heads, obs) && LedgerOf(obs, ledger) && o.payload.subject in heads
    requires o.payload.id in ledger ==> ledger[o.payload.id].payload == o.payload
    ensures Consistent(heads, obs + [o])
  {
    var all := obs + [o];
    forall i, j | 0 <= i < j < |all| && all[i].payload.id == all[j].payload.id ensures all[i].payload == all[j].payload {
      assert obs[i].payload.id in ledger;
    }
  }

  lemma ObservationNoted(obs: seq<Observation>, o: Observation, ledger: map<string, Evidence>, ledger': map<string, Evidence>)
    requires LedgerOf(obs, ledger) && ledger' == Noted(ledger, o)
    requires o.payload.id in ledger ==> ledger[o.payload.id].payload == o.payload
    ensures LedgerOf(obs + [o], ledger')
  {
    var all := obs + [o];
    assert forall x :: x in all <==> x in obs || x == o;
    assert forall x :: x in obs ==> x.payload.id in ledger;
    forall i, who | i in ledger'
      ensures who in ledger'[i].producers <==> Observation(who, ledger'[i].payload) in all
    {
      if i != o.payload.id { assert ledger'[i] == ledger[i]; }
    }
    assert forall k :: 0 <= k < |obs| ==> all[k] == obs[k];
  }

  lemma ConsistentIgnoresTheOrder(heads: set<string>, obs: seq<Observation>, other: seq<Observation>)
    requires forall o :: o in other ==> o in obs
    requires Consistent(heads, obs)
    ensures Consistent(heads, other)
  {
    forall k | 0 <= k < |other| ensures other[k].payload.subject in heads {
      assert other[k] in obs;
    }
    forall i, j | 0 <= i < j < |other| && other[i].payload.id == other[j].payload.id
      ensures other[i].payload == other[j].payload
    {
      assert other[i] in obs && other[j] in obs;
    }
  }

  /** The ledger is a function of the set of observations: order and repetition change neither verdict nor content. */
  lemma LedgerIgnoresTheOrder(
      heads: set<string>, obs: seq<Observation>, other: seq<Observation>, ledger: map<string, Evidence>,
      ledger': map<string, Evidence>)
    requires forall o :: o in obs <==> o in other
    ensures Consistent(heads, obs) <==> Consistent(heads, other)
    ensures LedgerOf(obs, ledger) && LedgerOf(other, ledger') ==> ledger == ledger'
  {
    if Consistent(heads, obs) { ConsistentIgnoresTheOrder(heads, obs, other); }
    if Consistent(heads, other) { ConsistentIgnoresTheOrder(heads, other, obs); }
    if LedgerOf(obs, ledger) && LedgerOf(other, ledger') {
      forall id | id in ledger ensures id in ledger' && ledger'[id] == ledger[id] {
        SameEvidence(obs, other, ledger, ledger', id);
      }
      forall id | id in ledger' ensures id in ledger {
        SameEvidence(other, obs, ledger', ledger, id);
      }
    }
  }

  lemma SameEvidence(
      obs: seq<Observation>, other: seq<Observation>, ledger: map<string, Evidence>, ledger': map<string, Evidence>, id: string)
    requires forall o :: o in obs <==> o in other
    requires LedgerOf(obs, ledger) && LedgerOf(other, ledger') && id in ledger
    ensures id in ledger' && ledger'[id] == ledger[id]
  {
    var who :| who in ledger[id].producers;
    var o := Observation(who, ledger[id].payload);
    assert o in other;
    var k :| 0 <= k < |other| && other[k] == o;
    assert ledger'[id].payload == ledger[id].payload;
    assert forall w :: w in ledger[id].producers <==> w in ledger'[id].producers;
  }
}
