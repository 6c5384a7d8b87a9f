/** The cache as the database sees it: three levels of keys over one in-process backend. */
module Cache {
  import opened Wrappers
  import Lru
  import opened CachedStore
  import opened Workspaces

  // ----- the backend -----

  class LocalLRUBackend<V> {
    const max: nat
    var store: Lru.Entries<V>

    ghost predicate Valid()
      reads this
    {
      Lru.InOrder(store, max)
    }

    constructor (max: nat)
      ensures Valid() && this.max == max && store == []
    {
      this.max := max;
      store := [];
    }

    /** Looks a key up; a hit moves to the most recent end, an expired entry is dropped. */
    method Get(key: string, now: real) returns (value: Option<V>)
      requires Valid()
      modifies this
      ensures Valid()
      ensures (store, value) == Lru.Get(old(store), key, now)
    {
      Lru.GetKeepsOrder(store, max, key, now);
      var entry := Lru.Find(store, key);
      if entry.None? { return None; }
      if Lru.Expired(entry.value, now) {
        store := Lru.Without(store, key);
        return None;
      }
      store := Lru.Without(store, key) + [entry.value];
      value := Some(entry.value.value);
    }

    /** Puts a value at the most recent end and drops the oldest entries that no longer fit. */
    method Set(key: string, value: V, ttl: nat, now: real)
      requires Valid()
      modifies this
      ensures Valid()
      ensures store == Lru.Set(old(store), max, key, value, ttl, now)
    {
      Lru.SetKeepsOrder(store, max, key, value, ttl, now);
      store := Lru.Without(store, key) + [Lru.Fresh(key, value, ttl, now)];
      ghost var all := store;
      while |store| > max
        invariant |store| <= |all| && store == all[|all| - |store|..]
        invariant |store| < |all| ==> max <= |store|
      {
        store := store[1..];
      }
    }

    method Delete(key: string)
      requires Valid()
      modifies this
      ensures Valid()
      ensures store == Lru.Without(old(store), key)
    {
      Lru.WithoutKeyed(store, key);
      Lru.WithoutSize(store, key);
      store := Lru.Without(store, key);
    }

    /** Deletes every key that begins with a prefix and counts them. */
    method DeletePrefix(prefix: string) returns (count: nat)
      requires Valid()
      modifies this
      ensures Valid()
      ensures store == Lru.WithoutPrefix(old(store), prefix)
      ensures count == |old(store)| - |store|
    {
      var entries := store;
      var keys: seq<string> := [];
      for i := 0 to |entries|
        invariant forall k :: k in keys <==> exists j :: 0 <= j < i && entries[j].key == k && prefix <= k
        invariant |keys| + |Lru.WithoutPrefix(entries[..i], prefix)| == i
        invariant store == entries
      {
        Lru.WithoutPrefixAppend(entries[..i], entries[i], prefix);
        assert entries[..i + 1] == entries[..i] + [entries[i]];
        if prefix <= entries[i].key { keys := keys + [entries[i].key]; }
      }
      assert entries[..|entries|] == entries;
      Lru.WithoutPrefixKeyed(entries, prefix);
      ghost var gone: set<string> := {};
      Lru.LosingOneMore(entries, {}, "");
      for i := 0 to |keys|
        invariant gone == set k | k in keys[..i]
        invariant store == Lru.Losing(entries, gone)
      {
        Lru.LosingOneMore(entries, gone, keys[i]);
        store := Lru.Without(store, keys[i]);
        gone := gone + {keys[i]};
      }
      assert keys[..|keys|] == keys;
      Lru.LosingPrefixed(entries, gone, prefix);
      count := |keys|;
    }
  }

  /** Keys and invalidation rules over the backend. */
  class WorkspaceCache {
    const b: LocalLRUBackend<CacheValue>

    constructor (b: LocalLRUBackend<CacheValue>)
      ensures this.b == b
    {
      this.b := b;
    }

    method GetBlob(h: string, now: real) returns (text: Option<string>)
      requires b.Valid()
      modifies b
      ensures b.Valid()
      ensures var (e, hit) := Lru.Get(old(b.store), BlobKey(h), now);
        b.store == e && text == if hit.Some? && hit.value.Text? then Some(hit.value.text) else None
    {
      var hit := b.Get(BlobKey(h), now);
      text := if hit.Some? && hit.value.Text? then Some(hit.value.text) else None;
    }

    method SetBlob(h: string, text: string, now: real)
      requires b.Valid()
      modifies b
      ensures b.Valid()
      ensures b.store == Lru.Set(old(b.store), b.max, BlobKey(h), Text(text), BLOB_TTL, now)
    {
      b.Set(BlobKey(h), Text(text), BLOB_TTL, now);
    }

    method GetFile(ws: string, p: Path, now: real) returns (file: Option<FileView>)
      requires b.Valid()
      modifies b
      ensures b.Valid()
      ensures var (e, hit) := Lru.Get(old(b.store), FileKey(ws, p), now);
        b.store == e && file == if hit.Some? && hit.value.FileValue? then Some(hit.value.file) else None
    {
      var hit := b.Get(FileKey(ws, p), now);
      file := if hit.Some? && hit.value.FileValue? then Some(hit.value.file) else None;
    }

    method SetFile(ws: string, p: Path, file: FileView, now: real)
      requires b.Valid()
      modifies b
      ensures b.Valid()
      ensures b.store == Lru.Set(old(b.store), b.max, FileKey(ws, p), FileValue(file), 0, now)
    {
      b.Set(FileKey(ws, p), FileValue(file), 0, now);
    }

    method GetState(ws: string, kind: string, now: real) returns (reply: Option<Reply>)
      requires b.Valid()
      modifies b
      ensures b.Valid()
      ensures var (e, hit) := Lru.Get(old(b.store), StateKey(ws, kind), now);
        b.store == e && reply == if hit.Some? && hit.value.StateValue? then Some(hit.value.reply) else None
    {
      var hit := b.Get(StateKey(ws, kind), now);
      reply := if hit.Some? && hit.value.StateValue? then Some(hit.value.reply) else None;
    }

    method SetState(ws: string, kind: string, reply: Reply, now: real)
      requires b.Valid()
      modifies b
      ensures b.Valid()
      ensures b.store == Lru.Set(old(b.store), b.max, StateKey(ws, kind), StateValue(reply), 0, now)
    {
      b.Set(StateKey(ws, kind), StateValue(reply), 0, now);
    }

    method InvalidateFile(ws: string, p: Path)
      requires b.Valid()
      modifies b
      ensures b.Valid() && b.store == CachedStore.InvalidateFile(old(b.store), ws, p)
    {
      b.Delete(FileKey(ws, p));
      InvalidateWorkspaceState(ws);
    }

    method InvalidateWorkspaceState(ws: string)
      requires b.Valid()
      modifies b
      ensures b.Valid() && b.store == Lru.WithoutPrefix(old(b.store), StatePrefix(ws))
    {
      var _ := b.DeletePrefix(StatePrefix(ws));
    }

    method InvalidateWorkspace(ws: string)
      requires b.Valid()
      modifies b
      ensures b.Valid() && b.store == CachedStore.InvalidateWorkspace(old(b.store), ws)
    {
      var _ := b.DeletePrefix(FilePrefix(ws));
      var _ := b.DeletePrefix(StatePrefix(ws));
    }
  }
}
