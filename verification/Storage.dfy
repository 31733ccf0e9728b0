/** The key-value stores of the runtime: a root tree and overlays that keep writes until committed
    (runtime-sdk/src/storage/overlay.rs). */
module Storage {
  import opened Basics

  /** A handler to invoke once the consensus layer has processed an emitted message. */
  datatype Hook = Hook(name: string, payload: Bytes)

  /** A stored value. Serialisation is ideal: a typed value is kept as itself. */
  datatype Value = Raw(bytes: Bytes) | Handlers(hooks: map<nat, Hook>)

  type Content = map<Bytes, Value>

  datatype Store =
    | Base(content: Content)
    | Overlay(parent: Store, overlay: Content, dirty: set<Bytes>)
  {
    /** Every pending value is recorded as dirty. */
    predicate Valid() {
      Overlay? ==> overlay.Keys <= dirty && parent.Valid()
    }

    /** What a reader of this store sees. */
    function View(): Content {
      match this
      case Base(content) => content
      case Overlay(parent, overlay, dirty) => (parent.View() - dirty) + overlay
    }

    function Get(key: Bytes): Option<Value> {
      match this
      case Base(content) => Lookup(content, key)
      case Overlay(parent, overlay, dirty) =>
        if key in dirty then Lookup(overlay, key) else parent.Get(key)
    }

    function Insert(key: Bytes, value: Value): Store {
      match this
      case Base(content) => Base(content[key := value])
      case Overlay(_, _, _) => this.(overlay := overlay[key := value], dirty := dirty + {key})
    }

    function Remove(key: Bytes): Store {
      match this
      case Base(content) => Base(content - {key})
      case Overlay(_, _, _) =>
        if key in dirty then this.(overlay := overlay - {key}) else this.(dirty := dirty + {key})
    }

    /** The parent after all pending updates have been applied to it. */
    function Committed(): Store
      requires Overlay?
    {
      match parent
      case Base(content) => Base((content - dirty) + overlay)
      case Overlay(_, _, _) =>
        parent.(overlay := (parent.overlay - dirty) + overlay, dirty := parent.dirty + dirty)
    }
  }

  /** A lookup through any number of overlays returns what the merged view holds. */
  lemma {:induction false} GetReadsView(s: Store, key: Bytes)
    requires s.Valid()
    ensures s.Get(key) == Lookup(s.View(), key)
  {
    if s.Overlay? {
      GetReadsView(s.parent, key);
    }
  }

  /** Writing and deleting change the view like a map, at every nesting depth. */
  lemma UpdatesChangeView(s: Store, key: Bytes, value: Value)
    requires s.Valid()
    ensures s.Insert(key, value).Valid() && s.Insert(key, value).View() == s.View()[key := value]
    ensures s.Remove(key).Valid() && s.Remove(key).View() == s.View() - {key}
  {
    assert s.Insert(key, value).View() == s.View()[key := value];
    assert s.Remove(key).View() == s.View() - {key};
  }

  /** Committing an overlay gives the parent exactly the view the overlay had. */
  lemma CommitKeepsView(s: Store)
    requires s.Valid() && s.Overlay?
    ensures s.Committed().Valid() && s.Committed().View() == s.View()
  {
    assert s.Committed().View() == s.View();
  }

  /** Content `c` after the updates pending in `o` for the keys `done` have been applied. */
  function Patched(c: Content, o: Content, done: set<Bytes>): Content {
    map k | k in c.Keys + o.Keys && (if k in done then k in o else k in c) ::
      if k in done then o[k] else c[k]
  }

  lemma PatchStep(c: Content, o: Content, done: set<Bytes>, key: Bytes)
    ensures key in o ==> Patched(c, o, done)[key := o[key]] == Patched(c, o, done + {key})
    ensures key !in o ==> Patched(c, o, done) - {key} == Patched(c, o, done + {key})
  {
  }

  /** The parent after the pending updates to the keys `done` have been applied. */
  function Applied(s: Store, done: set<Bytes>): Store
    requires s.Overlay?
  {
    match s.parent
    case Base(content) => Base(Patched(content, s.overlay, done))
    case Overlay(p, overlay, dirty) => Overlay(p, Patched(overlay, s.overlay, done), dirty + done)
  }

  lemma AppliedStep(s: Store, done: set<Bytes>, key: Bytes)
    requires s.Valid() && s.Overlay? && key !in done
    ensures key in s.overlay ==> Applied(s, done).Insert(key, s.overlay[key]) == Applied(s, done + {key})
    ensures key !in s.overlay ==> Applied(s, done).Remove(key) == Applied(s, done + {key})
  {
    match s.parent
    case Base(content) => PatchStep(content, s.overlay, done, key);
    case Overlay(p, overlay, dirty) =>
      PatchStep(overlay, s.overlay, done, key);
      assert dirty + done + {key} == dirty + (done + {key});
      if key in dirty {
        assert dirty + done == dirty + (done + {key});
      } else {
        assert key !in Patched(overlay, s.overlay, done);
        assert Patched(overlay, s.overlay, done) - {key} == Patched(overlay, s.overlay, done);
      }
  }

  /** Commit as the source does it: write back every pending value, then delete every dirty key
      that is left. The order in which the keys are visited is arbitrary. */
  method CommitOverlay(s: Store) returns (p: Store)
    requires s.Valid() && s.Overlay?
    ensures p == s.Committed()
  {
    var pending, dirty := s.overlay.Keys, s.dirty;
    p := s.parent;
    assert p == Applied(s, s.dirty - dirty);
    while pending != {}
      invariant s.overlay.Keys * dirty == pending <= dirty <= s.dirty
      invariant p == Applied(s, s.dirty - dirty)
      decreases pending
    {
      var key :| key in pending;
      AppliedStep(s, s.dirty - dirty, key);
      assert s.dirty - dirty + {key} == s.dirty - (dirty - {key});
      assert s.overlay.Keys * (dirty - {key}) == pending - {key};
      dirty := dirty - {key};
      p := p.Insert(key, s.overlay[key]);
      pending := pending - {key};
    }
    assert forall k :: k in dirty ==> k !in s.overlay.Keys * dirty;
    while dirty != {}
      invariant dirty <= s.dirty && dirty !! s.overlay.Keys
      invariant p == Applied(s, s.dirty - dirty)
      decreases dirty
    {
      var key :| key in dirty;
      AppliedStep(s, s.dirty - dirty, key);
      assert s.dirty - dirty + {key} == s.dirty - (dirty - {key});
      p := p.Remove(key);
      dirty := dirty - {key};
    }
    assert s.dirty - dirty == s.dirty;
  }
}
