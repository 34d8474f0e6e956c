/** AnimationHierarchyEditor: an editor window that lists the animation clips
    picked by the user, groups every curve binding of those clips by its
    hierarchy path, and renames paths (one at a time, or by search and
    replace) in every clip. */
module AnimationHierarchyEditor {
  import opened Common

  /** An EditorCurveBinding: the hierarchy path it animates and the property. */
  datatype Binding = Binding(path: string, propertyName: string)

  /** An AnimationClip, as its float-curve bindings and its object-reference
      curve bindings. */
  datatype Clip = Clip(curves: seq<Binding>, references: seq<Binding>)

  // ---------------------------------------------------------------- clip list

  /** The list the clip-size check builds: length max(size, 0), the old
      clips kept where they fit, null past them. */
  function Resized(clips: seq<Option<Clip>>, size: int): (r: seq<Option<Clip>>)
    ensures |r| == if size < 0 then 0 else size
    ensures forall i :: 0 <= i < |r| ==> r[i] == if i < |clips| then clips[i] else None
  {
    if size <= 0 then []
    else Resized(clips, size - 1) + [if size - 1 < |clips| then clips[size - 1] else None]
  }

  /** Resizing to the current length changes nothing, and growing then
      shrinking back restores the list. */
  lemma ResizedRoundTrip(clips: seq<Option<Clip>>, extra: nat)
    ensures Resized(clips, |clips|) == clips
    ensures Resized(Resized(clips, |clips| + extra), |clips|) == clips
  {
  }

  /** `clips.Insert(i + 1, null)`. */
  function InsertAfter(clips: seq<Option<Clip>>, i: nat): (r: seq<Option<Clip>>)
    requires i < |clips|
    ensures |r| == |clips| + 1 && r[i + 1] == None
    ensures forall j :: 0 <= j <= i ==> r[j] == clips[j]
    ensures forall j :: i + 1 < j < |r| ==> r[j] == clips[j - 1]
  {
    clips[..i + 1] + [None] + clips[i + 1..]
  }

  /** `clips.RemoveAt(i)`. */
  function RemoveAt(clips: seq<Option<Clip>>, i: nat): (r: seq<Option<Clip>>)
    requires i < |clips|
    ensures |r| == |clips| - 1
    ensures forall j :: 0 <= j < i ==> r[j] == clips[j]
    ensures forall j :: i <= j < |r| ==> r[j] == clips[j + 1]
  {
    clips[..i] + clips[i + 1..]
  }

  /** Removing the null just inserted after row i gives the list back. */
  lemma InsertThenRemove(clips: seq<Option<Clip>>, i: nat)
    requires i < |clips|
    ensures RemoveAt(InsertAfter(clips, i), i + 1) == clips
  {
    var r := RemoveAt(InsertAfter(clips, i), i + 1);
    assert forall j :: 0 <= j < |clips| ==> r[j] == clips[j];
  }

  // ---------------------------------------------------------------- grouping

  /** The bindings FillModel visits: for each non-null clip in order, its
      curve bindings and then its object-reference bindings. */
  function Bindings(clips: seq<Option<Clip>>): (r: seq<Binding>)
    ensures forall b :: b in r <==> exists i :: 0 <= i < |clips| && clips[i].Some? &&
                                                (b in clips[i].value.curves || b in clips[i].value.references)
  {
    if clips == [] then []
    else
      var init := clips[..|clips| - 1];
      var last := clips[|clips| - 1];
      assert forall i :: 0 <= i < |init| ==> init[i] == clips[i];
      Bindings(init) + (if last.Some? then last.value.curves + last.value.references else [])
  }

  /** pathsKeys as FillModelWithCurves leaves it: each path once, in the
      order it is first met. */
  function Keys(bs: seq<Binding>): (r: seq<string>)
    ensures |r| <= |bs|
  {
    if bs == [] then []
    else
      var keys := Keys(bs[..|bs| - 1]);
      var key := bs[|bs| - 1].path;
      if key in keys then keys else keys + [key]
  }

  /** paths[key] as FillModelWithCurves leaves it: the bindings on that path,
      in order. */
  function Filter(bs: seq<Binding>, key: string): (r: seq<Binding>)
    ensures |r| <= |bs| && forall i :: 0 <= i < |r| ==> r[i].path == key
  {
    if bs == [] then []
    else
      var rest := Filter(bs[..|bs| - 1], key);
      if bs[|bs| - 1].path == key then rest + [bs[|bs| - 1]] else rest
  }

  lemma KeysAppend(bs: seq<Binding>, b: Binding)
    ensures Keys(bs + [b]) == if b.path in Keys(bs) then Keys(bs) else Keys(bs) + [b.path]
    ensures forall key :: Filter(bs + [b], key) == if b.path == key then Filter(bs, key) + [b] else Filter(bs, key)
  {
    assert (bs + [b])[..|bs|] == bs;
  }

  /** The keys are exactly the paths that occur. */
  lemma {:induction false} KeysMembers(bs: seq<Binding>)
    ensures forall key :: key in Keys(bs) <==> exists i :: 0 <= i < |bs| && bs[i].path == key
  {
    if bs != [] {
      var front := bs[..|bs| - 1];
      var b := bs[|bs| - 1];
      assert bs == front + [b];
      KeysMembers(front);
      KeysAppend(front, b);
      forall key
        ensures key in Keys(bs) <==> exists i :: 0 <= i < |bs| && bs[i].path == key
      {
        if exists i :: 0 <= i < |front| && front[i].path == key {
          var i :| 0 <= i < |front| && front[i].path == key;
          assert bs[i] == front[i];
        }
        if exists i :: 0 <= i < |bs| && bs[i].path == key {
          var i :| 0 <= i < |bs| && bs[i].path == key;
          if i < |front| { assert front[i] == bs[i]; }
        }
      }
    }
  }

  /** Each path is listed once. */
  lemma {:induction false} KeysDistinct(bs: seq<Binding>)
    ensures forall i, j :: 0 <= i < j < |Keys(bs)| ==> Keys(bs)[i] != Keys(bs)[j]
  {
    if bs != [] {
      var front := bs[..|bs| - 1];
      var b := bs[|bs| - 1];
      assert bs == front + [b];
      KeysDistinct(front);
      KeysAppend(front, b);
    }
  }

  /** The keys are in the order of first occurrence: the keys of any prefix
      of the bindings are a prefix of the keys, so a path met later is
      listed later. */
  lemma {:induction false} KeysFirstSeen(bs: seq<Binding>)
    ensures forall n :: 0 <= n <= |bs| ==> Keys(bs[..n]) <= Keys(bs)
  {
    if bs != [] {
      var front := bs[..|bs| - 1];
      var b := bs[|bs| - 1];
      assert bs == front + [b];
      KeysFirstSeen(front);
      KeysAppend(front, b);
      forall n | 0 <= n <= |bs|
        ensures Keys(bs[..n]) <= Keys(bs)
      {
        if n < |bs| {
          assert bs[..n] == front[..n];
        } else {
          assert bs[..n] == bs;
        }
      }
    }
  }

  /** A key's list holds exactly the bindings on that path, and holds
      something exactly when the key is listed. */
  lemma {:induction false} FilterSpec(bs: seq<Binding>, key: string)
    ensures forall b :: b in Filter(bs, key) <==> b in bs && b.path == key
    ensures Filter(bs, key) != [] <==> key in Keys(bs)
  {
    if bs != [] {
      var front := bs[..|bs| - 1];
      var b := bs[|bs| - 1];
      assert bs == front + [b];
      FilterSpec(front, key);
      KeysAppend(front, b);
    }
  }

  /** paths and pathsKeys describe the grouping of the bindings bs. */
  ghost predicate Grouped(keys: seq<string>, paths: map<string, seq<Binding>>, bs: seq<Binding>) {
    keys == Keys(bs) &&
    (forall key :: key in paths <==> key in keys) &&
    (forall key :: key in paths ==> paths[key] == Filter(bs, key))
  }

  /** One more binding joins its path's list, or opens a new key. */
  lemma GroupedAppend(keys: seq<string>, paths: map<string, seq<Binding>>, bs: seq<Binding>, b: Binding)
    requires Grouped(keys, paths, bs)
    ensures b.path in paths ==> Grouped(keys, paths[b.path := paths[b.path] + [b]], bs + [b])
    ensures b.path !in paths ==> Grouped(keys + [b.path], paths[b.path := [b]], bs + [b])
  {
    KeysAppend(bs, b);
    FilterSpec(bs, b.path);
  }

  // ---------------------------------------------------------------- renaming

  /** The assignment `binding.path = newPath` made only where the path is
      oldPath. */
  function Rebind(b: Binding, oldPath: string, newPath: string): (r: Binding)
    ensures r.propertyName == b.propertyName
    ensures r.path == if b.path == oldPath then newPath else b.path
  {
    if b.path == oldPath then b.(path := newPath) else b
  }

  function RebindAll(bs: seq<Binding>, oldPath: string, newPath: string): (r: seq<Binding>)
    ensures |r| == |bs| && forall i :: 0 <= i < |bs| ==> r[i] == Rebind(bs[i], oldPath, newPath)
  {
    seq(|bs|, i requires 0 <= i < |bs| => Rebind(bs[i], oldPath, newPath))
  }

  /** UpdatePath on one clip: each of its bindings is rebound, in place. */
  function RebindClip(c: Option<Clip>, oldPath: string, newPath: string): (r: Option<Clip>)
    ensures r.Some? <==> c.Some?
    ensures c.Some? ==> |r.value.curves| == |c.value.curves| && |r.value.references| == |c.value.references|
    ensures c.Some? ==> forall i :: 0 <= i < |c.value.curves| ==>
                          r.value.curves[i] == Rebind(c.value.curves[i], oldPath, newPath)
    ensures c.Some? ==> forall i :: 0 <= i < |c.value.references| ==>
                          r.value.references[i] == Rebind(c.value.references[i], oldPath, newPath)
  {
    if c.None? then None
    else Some(Clip(RebindAll(c.value.curves, oldPath, newPath), RebindAll(c.value.references, oldPath, newPath)))
  }

  /** UpdatePath on the clips: every binding on oldPath moves to newPath. */
  function RebindClips(clips: seq<Option<Clip>>, oldPath: string, newPath: string): (r: seq<Option<Clip>>)
    ensures |r| == |clips|
  {
    seq(|clips|, i requires 0 <= i < |clips| => RebindClip(clips[i], oldPath, newPath))
  }

  /** Renaming a path to a name no binding uses can be undone by renaming it
      back. */
  lemma RebindUndo(bs: seq<Binding>, oldPath: string, newPath: string)
    requires forall i :: 0 <= i < |bs| ==> bs[i].path != newPath
    ensures RebindAll(RebindAll(bs, oldPath, newPath), newPath, oldPath) == bs
  {
    var r := RebindAll(RebindAll(bs, oldPath, newPath), newPath, oldPath);
    assert forall i :: 0 <= i < |bs| ==> r[i] == bs[i];
  }

  /** A rename leaves the grouping of the other paths as it was. */
  lemma {:induction false} RebindKeepsOtherGroups(bs: seq<Binding>, oldPath: string, newPath: string, key: string)
    requires key != oldPath && key != newPath
    ensures Filter(RebindAll(bs, oldPath, newPath), key) == Filter(bs, key)
  {
    if bs != [] {
      var front := bs[..|bs| - 1];
      assert RebindAll(bs, oldPath, newPath)[..|bs| - 1] == RebindAll(front, oldPath, newPath);
      RebindKeepsOtherGroups(front, oldPath, newPath, key);
    }
  }

  /** s occurs in t at index i. */
  predicate At(t: string, s: string, i: nat) {
    i + |s| <= |t| && t[i..i + |s|] == s
  }

  /** s occurs in t. */
  predicate Contains(t: string, s: string) {
    exists i: nat :: i <= |t| && At(t, s, i)
  }

  /** `t.Replace(s, r)`: every occurrence of s, scanning left to right
      without overlap, becomes r. */
  function ReplaceAll(t: string, s: string, r: string): (result: string)
    requires s != []
    ensures forall i :: 0 <= i < |result| ==> result[i] in t || result[i] in r
    decreases |t|
  {
    if |t| < |s| then t
    else if t[..|s|] == s then r + ReplaceAll(t[|s|..], s, r)
    else [t[0]] + ReplaceAll(t[1..], s, r)
  }

  /** The number of occurrences ReplaceAll replaces. */
  function Occurrences(t: string, s: string): nat
    requires s != []
    decreases |t|
  {
    if |t| < |s| then 0
    else if t[..|s|] == s then 1 + Occurrences(t[|s|..], s)
    else Occurrences(t[1..], s)
  }

  lemma OneMore(k: int, d: int)
    ensures (1 + k) * d == d + k * d
  {
  }

  /** Each replaced occurrence changes the length by |r| - |s|. */
  lemma {:induction false} ReplaceAllLength(t: string, s: string, r: string)
    requires s != []
    ensures |ReplaceAll(t, s, r)| == |t| + Occurrences(t, s) * (|r| - |s|)
    decreases |t|
  {
    if |t| >= |s| {
      var d := |r| - |s|;
      if t[..|s|] == s {
        var rest := t[|s|..];
        var k := Occurrences(rest, s);
        ReplaceAllLength(rest, s, r);
        assert Occurrences(t, s) == 1 + k;
        assert |ReplaceAll(t, s, r)| == |r| + |ReplaceAll(rest, s, r)|;
        OneMore(k, d);
      } else {
        ReplaceAllLength(t[1..], s, r);
        assert Occurrences(t, s) == Occurrences(t[1..], s);
        assert |ReplaceAll(t, s, r)| == 1 + |ReplaceAll(t[1..], s, r)|;
      }
    }
  }

  /** A text without an occurrence is left as it is. */
  lemma {:induction false} ReplaceAllAbsent(t: string, s: string, r: string)
    requires s != []
    ensures Occurrences(t, s) == 0 ==> ReplaceAll(t, s, r) == t
    decreases |t|
  {
    if |t| >= |s| && t[..|s|] != s {
      ReplaceAllAbsent(t[1..], s, r);
      assert t == [t[0]] + t[1..];
    }
  }

  /** Replacing s by itself changes nothing. */
  lemma {:induction false} ReplaceAllSelf(t: string, s: string)
    requires s != []
    ensures ReplaceAll(t, s, s) == t
    decreases |t|
  {
    if |t| >= |s| {
      if t[..|s|] == s {
        ReplaceAllSelf(t[|s|..], s);
        assert t == s + t[|s|..];
      } else {
        ReplaceAllSelf(t[1..], s);
        assert t == [t[0]] + t[1..];
      }
    }
  }

  lemma AtShift(t: string, s: string, i: nat)
    requires 1 <= i && 1 <= |t|
    ensures At(t, s, i) <==> At(t[1..], s, i - 1)
  {
    if i + |s| <= |t| {
      assert t[1..][i - 1..i - 1 + |s|] == t[i..i + |s|];
    }
  }

  /** Some occurrence is replaced exactly when s occurs. */
  lemma {:induction false} OccurrencesContains(t: string, s: string)
    requires s != []
    ensures Occurrences(t, s) > 0 <==> Contains(t, s)
    decreases |t|
  {
    if |t| >= |s| {
      if t[..|s|] == s {
        assert At(t, s, 0);
      } else {
        OccurrencesContains(t[1..], s);
        if Contains(t, s) {
          var i: nat :| i <= |t| && At(t, s, i);
          assert i != 0;
          AtShift(t, s, i);
        }
        if Contains(t[1..], s) {
          var i: nat :| i <= |t[1..]| && At(t[1..], s, i);
          AtShift(t, s, i + 1);
        }
      }
    }
  }

  /** The clips after the Replace button's loop over the keys: each key that
      contains s is renamed, one after another. */
  function RenameMatching(clips: seq<Option<Clip>>, keys: seq<string>, s: string, r: string): (result: seq<Option<Clip>>)
    requires s != []
    ensures |result| == |clips|
  {
    if keys == [] then clips
    else
      var before := RenameMatching(clips, keys[..|keys| - 1], s, r);
      var key := keys[|keys| - 1];
      if Contains(key, s) then RebindClips(before, key, ReplaceAll(key, s, r)) else before
  }

  /** Keys that do not contain the search string are never renamed: with no
      key containing it the clips are untouched. */
  lemma {:induction false} RenameMatchingSkips(clips: seq<Option<Clip>>, keys: seq<string>, s: string, r: string)
    requires s != []
    requires forall i :: 0 <= i < |keys| ==> !Contains(keys[i], s)
    ensures RenameMatching(clips, keys, s, r) == clips
  {
    if keys != [] {
      RenameMatchingSkips(clips, keys[..|keys| - 1], s, r);
    }
  }

  /** No key containing s is renamed onto a key: the Replace loop then never
      renames a path it produced itself. */
  predicate NoRenameClash(keys: seq<string>, s: string, r: string)
    requires s != []
  {
    forall i, j :: 0 <= i < |keys| && 0 <= j < |keys| && Contains(keys[i], s) ==> ReplaceAll(keys[i], s, r) != keys[j]
  }

  /** Where the Replace loop sends a path: a key containing s goes to
      ReplaceAll(key, s, r); every other path stays. */
  function RenamedPath(keys: seq<string>, s: string, r: string, p: string): string
    requires s != []
  {
    if p in keys && Contains(p, s) then ReplaceAll(p, s, r) else p
  }

  function RenamedBinding(keys: seq<string>, s: string, r: string, b: Binding): Binding
    requires s != []
  {
    b.(path := RenamedPath(keys, s, r, b.path))
  }

  function RenamedClip(keys: seq<string>, s: string, r: string, c: Option<Clip>): Option<Clip>
    requires s != []
  {
    if c.None? then None
    else Some(Clip(seq(|c.value.curves|, i requires 0 <= i < |c.value.curves| => RenamedBinding(keys, s, r, c.value.curves[i])),
                   seq(|c.value.references|, i requires 0 <= i < |c.value.references| => RenamedBinding(keys, s, r, c.value.references[i]))))
  }

  /** One more key in the loop: a binding already placed by the earlier keys
      is rebound by the new key exactly as RenamedPath over all keys says. */
  lemma RenameStepBinding(keys: seq<string>, s: string, r: string, b: Binding)
    requires s != [] && keys != [] && NoRenameClash(keys, s, r)
    ensures var key := keys[|keys| - 1];
            var before := RenamedBinding(keys[..|keys| - 1], s, r, b);
            (if Contains(key, s) then Rebind(before, key, ReplaceAll(key, s, r)) else before) ==
            RenamedBinding(keys, s, r, b)
  {
    var front := keys[..|keys| - 1];
    var key := keys[|keys| - 1];
    assert keys == front + [key];
    var p := b.path;
    if p in front && Contains(p, s) {
      var i :| 0 <= i < |front| && front[i] == p;
      assert keys[i] == p;
      assert ReplaceAll(p, s, r) != keys[|keys| - 1];
    }
  }

  /** Renaming never clashes: under NoRenameClash, after the Replace loop
      every binding on a key containing s sits on ReplaceAll(key, s, r) and
      every other binding keeps its path, in every clip, in place. */
  lemma {:induction false} RenameMatchingMoves(clips: seq<Option<Clip>>, keys: seq<string>, s: string, r: string)
    requires s != [] && NoRenameClash(keys, s, r)
    ensures var out := RenameMatching(clips, keys, s, r);
            forall ci :: 0 <= ci < |clips| ==> out[ci] == RenamedClip(keys, s, r, clips[ci])
  {
    if keys == [] {
      forall ci | 0 <= ci < |clips|
        ensures clips[ci] == RenamedClip(keys, s, r, clips[ci])
      {
        if clips[ci].Some? {
          var c := clips[ci].value;
          assert RenamedClip(keys, s, r, clips[ci]).value.curves == c.curves;
          assert RenamedClip(keys, s, r, clips[ci]).value.references == c.references;
        }
      }
    } else {
      var front := keys[..|keys| - 1];
      var key := keys[|keys| - 1];
      assert NoRenameClash(front, s, r) by {
        assert forall i :: 0 <= i < |front| ==> front[i] == keys[i];
      }
      RenameMatchingMoves(clips, front, s, r);
      var before := RenameMatching(clips, front, s, r);
      var out := RenameMatching(clips, keys, s, r);
      forall ci | 0 <= ci < |clips|
        ensures out[ci] == RenamedClip(keys, s, r, clips[ci])
      {
        if clips[ci].Some? {
          var c := clips[ci].value;
          forall b | b in c.curves || b in c.references
            ensures (if Contains(key, s) then Rebind(RenamedBinding(front, s, r, b), key, ReplaceAll(key, s, r))
                     else RenamedBinding(front, s, r, b)) == RenamedBinding(keys, s, r, b)
          {
            RenameStepBinding(keys, s, r, b);
          }
          if Contains(key, s) {
            assert out[ci] == RebindClip(before[ci], key, ReplaceAll(key, s, r));
          }
          assert out[ci].value.curves == RenamedClip(keys, s, r, clips[ci]).value.curves;
          assert out[ci].value.references == RenamedClip(keys, s, r, clips[ci]).value.references;
        }
      }
    }
  }

  /** The bindings of one more clip follow those of the clips before it. */
  lemma BindingsStep(clips: seq<Option<Clip>>, i: nat)
    requires i < |clips|
    ensures Bindings(clips[..i + 1]) ==
            Bindings(clips[..i]) + (if clips[i].Some? then clips[i].value.curves + clips[i].value.references else [])
  {
    assert clips[..i + 1][..i] == clips[..i];
  }

  class AnimationHierarchyEditorWindow {
    var clipSize: int
    var clips: seq<Option<Clip>>
    var pathsKeys: seq<string>
    var paths: map<string, seq<Binding>>

    constructor ()
      ensures clipSize == 0 && clips == [] && pathsKeys == [] && paths == map[]
    {
      clipSize := 0;
      clips := [];
      pathsKeys := [];
      paths := map[];
    }

    /** The "+" and "-" next to the clip size, then the resize check. */
    method ClipSizeButtons(plus: bool, minus: bool)
      modifies this`clipSize, this`clips
      ensures clipSize == old(clipSize) + (if plus then 1 else 0) - (if minus then 1 else 0)
      ensures clips == Resized(old(clips), clipSize)
    {
      if plus { clipSize := clipSize + 1; }
      if minus { clipSize := clipSize - 1; }
      ResizeClips();
    }

    /** The list is rebuilt when clipSize and its length disagree. */
    method ResizeClips()
      modifies this`clips
      ensures clips == Resized(old(clips), clipSize)
    {
      if clipSize != |clips| {
        var current := clips;
        var newClips: seq<Option<Clip>> := [];
        var i := 0;
        while i < clipSize
          invariant 0 <= i && (if clipSize >= 0 then i <= clipSize else i == 0)
          invariant newClips == Resized(current, i)
        {
          newClips := newClips + [if i < |current| then current[i] else None];
          i := i + 1;
        }
        assert newClips == Resized(current, clipSize);
        clips := newClips;
      } else {
        ResizedRoundTrip(clips, 0);
        assert clips == Resized(clips, clipSize);
      }
    }

    /** The ObjectField of row i: the clip picked there replaces that row. */
    method SetClip(i: nat, c: Option<Clip>)
      requires i < |clips|
      modifies this`clips
      ensures clips == old(clips)[i := c]
    {
      clips := clips[i := c];
    }

    /** The per-row "+" (a null after that row) and "-" (that row removed),
        -1 meaning not pressed; the rows are those of the resized list. */
    method RowButtons(addClipIndex: int, removeClipIndex: int)
      requires |clips| == clipSize
      requires -1 <= addClipIndex < clipSize && -1 <= removeClipIndex < clipSize
      modifies this`clipSize, this`clips
      ensures |clips| == clipSize
      ensures var inserted := if addClipIndex >= 0 then InsertAfter(old(clips), addClipIndex) else old(clips);
              clips == if removeClipIndex >= 0 then RemoveAt(inserted, removeClipIndex) else inserted
      ensures clipSize == old(clipSize) + (if addClipIndex >= 0 then 1 else 0) - (if removeClipIndex >= 0 then 1 else 0)
    {
      if addClipIndex >= 0 {
        clips := InsertAfter(clips, addClipIndex);
        clipSize := clipSize + 1;
      }
      if removeClipIndex >= 0 {
        clips := RemoveAt(clips, removeClipIndex);
        clipSize := clipSize - 1;
      }
    }

    /** FillModel: the grouping is rebuilt from nothing over the non-null clips. */
    method FillModel()
      modifies this`paths, this`pathsKeys
      ensures Grouped(pathsKeys, paths, Bindings(clips))
    {
      paths := map[];
      pathsKeys := [];
      var i := 0;
      while i < |clips|
        invariant 0 <= i <= |clips|
        invariant Grouped(pathsKeys, paths, Bindings(clips[..i]))
      {
        BindingsStep(clips, i);
        if clips[i].Some? {
          FillModelWithCurves(clips[i].value.curves, Bindings(clips[..i]));
          FillModelWithCurves(clips[i].value.references, Bindings(clips[..i]) + clips[i].value.curves);
          assert Bindings(clips[..i]) + clips[i].value.curves + clips[i].value.references == Bindings(clips[..i + 1]);
        } else {
          assert Bindings(clips[..i]) + [] == Bindings(clips[..i]);
        }
        i := i + 1;
      }
      assert clips[..i] == clips;
    }

    /** FillModelWithCurves: each binding joins its path's list, a path met
        for the first time becoming a new key. */
    method FillModelWithCurves(curves: seq<Binding>, ghost before: seq<Binding>)
      requires Grouped(pathsKeys, paths, before)
      modifies this`paths, this`pathsKeys
      ensures Grouped(pathsKeys, paths, before + curves)
    {
      var i := 0;
      ghost var seen := before;
      while i < |curves|
        invariant 0 <= i <= |curves|
        invariant seen == before + curves[..i]
        invariant Grouped(pathsKeys, paths, seen)
      {
        var curveData := curves[i];
        var key := curveData.path;
        GroupedAppend(pathsKeys, paths, seen, curveData);
        if key in paths {
          paths := paths[key := paths[key] + [curveData]];
        } else {
          paths := paths[key := [curveData]];
          pathsKeys := pathsKeys + [key];
        }
        seen := seen + [curveData];
        assert curves[..i + 1] == curves[..i] + [curveData];
        i := i + 1;
      }
      assert curves[..i] == curves;
    }

    /** UpdatePath on every clip in the list. */
    method UpdatePath(oldPath: string, newPath: string)
      modifies this`clips
      ensures clips == RebindClips(old(clips), oldPath, newPath)
    {
      ghost var original := clips;
      var iCurrentClip := 0;
      while iCurrentClip < |clips|
        invariant 0 <= iCurrentClip <= |clips| == |original|
        invariant forall j :: 0 <= j < iCurrentClip ==> clips[j] == RebindClip(original[j], oldPath, newPath)
        invariant forall j :: iCurrentClip <= j < |clips| ==> clips[j] == original[j]
      {
        clips := clips[iCurrentClip := RebindClip(clips[iCurrentClip], oldPath, newPath)];
        iCurrentClip := iCurrentClip + 1;
      }
    }

    /** The Replace button: with a non-empty search string, every listed path
        that contains it is renamed with all its occurrences replaced; the
        grouping is then rebuilt. An empty search string does nothing. */
    method Replace(replaceTextFrom: string, replaceTextTo: string)
      modifies this`clips, this`paths, this`pathsKeys
      ensures replaceTextFrom == [] ==> clips == old(clips) && paths == old(paths) && pathsKeys == old(pathsKeys)
      ensures replaceTextFrom != [] ==>
                clips == RenameMatching(old(clips), old(pathsKeys), replaceTextFrom, replaceTextTo) &&
                Grouped(pathsKeys, paths, Bindings(clips))
    {
      if replaceTextFrom != [] {
        var keys := pathsKeys;
        var j := 0;
        while j < |keys|
          invariant 0 <= j <= |keys|
          invariant clips == RenameMatching(old(clips), keys[..j], replaceTextFrom, replaceTextTo)
        {
          assert keys[..j + 1][..j] == keys[..j];
          var path := keys[j];
          if Contains(path, replaceTextFrom) {
            var newPath := ReplaceAll(path, replaceTextFrom, replaceTextTo);
            UpdatePath(path, newPath);
          }
          j := j + 1;
        }
        assert keys[..j] == keys;
        FillModel();
      }
    }
  }
}
