/** The doubly indexed peer table of `src/peer.rs`.

    A primary map, a forward alias map and an ordered reverse index are kept in
    step. Together they refine one ordered list of (key, peer) pairs with unique
    keys. */
module Peers {
  import opened Common

  type Handle = nat

  /** One alias, in registration order. */
  datatype Alias = Alias(key: string, peer: PeerId)

  ghost predicate UniqueKeys(list: seq<Alias>) {
    forall i, j :: 0 <= i < j < |list| ==> list[i].key != list[j].key
  }

  /** The peer a key addresses. */
  function Lookup(list: seq<Alias>, key: string): Option<PeerId> {
    if list == [] then None
    else if list[0].key == key then Some(list[0].peer)
    else Lookup(list[1..], key)
  }

  /** The keys of one peer, in registration order. */
  function KeysOf(list: seq<Alias>, peer: PeerId): seq<string> {
    if list == [] then []
    else (if list[0].peer == peer then [list[0].key] else []) + KeysOf(list[1..], peer)
  }

  function WithoutKey(list: seq<Alias>, key: string): seq<Alias> {
    if list == [] then []
    else (if list[0].key == key then [] else [list[0]]) + WithoutKey(list[1..], key)
  }

  function WithoutPeer(list: seq<Alias>, peer: PeerId): seq<Alias> {
    if list == [] then []
    else (if list[0].peer == peer then [] else [list[0]]) + WithoutPeer(list[1..], peer)
  }

  /** Attaching a key: nothing changes when the peer has it already; otherwise it
      leaves its old owner and goes to the end. */
  function Attach(list: seq<Alias>, key: string, peer: PeerId): seq<Alias> {
    if Lookup(list, key) == Some(peer) then list else WithoutKey(list, key) + [Alias(key, peer)]
  }

  function Retain(keys: seq<string>, key: string): seq<string> {
    if keys == [] then []
    else (if keys[0] == key then [] else [keys[0]]) + Retain(keys[1..], key)
  }

  // ---- laws of the list ---------------------------------------------------

  lemma {:induction false} LookupAppend(list: seq<Alias>, a: Alias, key: string)
    ensures Lookup(list + [a], key)
      == if Lookup(list, key).Some? then Lookup(list, key) else if a.key == key then Some(a.peer) else None
  {
    if list == [] {
      assert list + [a] == [a];
    } else {
      LookupAppend(list[1..], a, key);
      assert (list + [a])[1..] == list[1..] + [a];
    }
  }

  lemma {:induction false} KeysAppend(list: seq<Alias>, a: Alias, peer: PeerId)
    ensures KeysOf(list + [a], peer) == KeysOf(list, peer) + (if a.peer == peer then [a.key] else [])
  {
    if list == [] {
      assert list + [a] == [a];
    } else {
      KeysAppend(list[1..], a, peer);
      assert (list + [a])[1..] == list[1..] + [a];
    }
  }

  lemma {:induction false} LookupWithoutKey(list: seq<Alias>, gone: string, key: string)
    ensures Lookup(WithoutKey(list, gone), key) == if key == gone then None else Lookup(list, key)
  {
    if list != [] {
      LookupWithoutKey(list[1..], gone, key);
      if list[0].key != gone {
        assert WithoutKey(list, gone)[1..] == WithoutKey(list[1..], gone);
      } else {
        assert WithoutKey(list, gone) == WithoutKey(list[1..], gone);
      }
    }
  }

  lemma {:induction false} KeysWithoutKey(list: seq<Alias>, gone: string, peer: PeerId)
    ensures KeysOf(WithoutKey(list, gone), peer) == Retain(KeysOf(list, peer), gone)
  {
    if list != [] {
      KeysWithoutKey(list[1..], gone, peer);
      if list[0].key != gone {
        assert WithoutKey(list, gone)[1..] == WithoutKey(list[1..], gone);
      } else {
        assert WithoutKey(list, gone) == WithoutKey(list[1..], gone);
      }
      if list[0].peer == peer {
        assert KeysOf(list, peer)[1..] == KeysOf(list[1..], peer);
      } else {
        assert KeysOf(list, peer) == KeysOf(list[1..], peer);
      }
    }
  }

  /** A key listed for a peer is looked up to that peer, and only then. */
  lemma {:induction false} ListedIffAddressed(list: seq<Alias>, key: string, peer: PeerId)
    requires UniqueKeys(list)
    ensures key in KeysOf(list, peer) <==> Lookup(list, key) == Some(peer)
  {
    if list != [] {
      ListedIffAddressed(list[1..], key, peer);
      LookupMember(list[1..], list[0].key);
    }
  }

  lemma {:induction false} LookupMember(list: seq<Alias>, key: string)
    ensures Lookup(list, key).Some? <==> exists i :: 0 <= i < |list| && list[i].key == key
  {
    if list != [] {
      LookupMember(list[1..], key);
      if i :| 0 <= i < |list| && list[i].key == key {
        if i > 0 {
          assert list[1..][i - 1].key == key;
        }
      }
      if i :| 0 <= i < |list[1..]| && list[1..][i].key == key {
        assert list[i + 1].key == key;
      }
    }
  }

  lemma {:induction false} WithoutKeyUnique(list: seq<Alias>, gone: string)
    requires UniqueKeys(list)
    ensures UniqueKeys(WithoutKey(list, gone))
    ensures forall a :: a in WithoutKey(list, gone) <==> a in list && a.key != gone
  {
    if list != [] {
      WithoutKeyUnique(list[1..], gone);
      assert list == [list[0]] + list[1..];
      var rest := WithoutKey(list[1..], gone);
      if list[0].key != gone {
        forall i | 0 <= i < |rest| ensures rest[i].key != list[0].key {
          assert rest[i] in list[1..];
        }
      }
    }
  }

  lemma {:induction false} LookupWithoutPeer(list: seq<Alias>, gone: PeerId, key: string)
    requires UniqueKeys(list)
    ensures Lookup(WithoutPeer(list, gone), key) == if Lookup(list, key) == Some(gone) then None else Lookup(list, key)
  {
    if list != [] {
      LookupWithoutPeer(list[1..], gone, key);
      if list[0].peer != gone {
        assert WithoutPeer(list, gone)[1..] == WithoutPeer(list[1..], gone);
      } else {
        assert WithoutPeer(list, gone) == WithoutPeer(list[1..], gone);
        LookupMember(list[1..], list[0].key);
      }
    }
  }

  lemma {:induction false} KeysWithoutPeer(list: seq<Alias>, gone: PeerId, peer: PeerId)
    ensures KeysOf(WithoutPeer(list, gone), peer) == if peer == gone then [] else KeysOf(list, peer)
  {
    if list != [] {
      KeysWithoutPeer(list[1..], gone, peer);
      if list[0].peer != gone {
        assert WithoutPeer(list, gone)[1..] == WithoutPeer(list[1..], gone);
      } else {
        assert WithoutPeer(list, gone) == WithoutPeer(list[1..], gone);
      }
    }
  }

  lemma {:induction false} WithoutPeerUnique(list: seq<Alias>, gone: PeerId)
    requires UniqueKeys(list)
    ensures UniqueKeys(WithoutPeer(list, gone))
    ensures forall a :: a in WithoutPeer(list, gone) <==> a in list && a.peer != gone
  {
    if list != [] {
      WithoutPeerUnique(list[1..], gone);
      assert list == [list[0]] + list[1..];
      var rest := WithoutPeer(list[1..], gone);
      forall i | 0 <= i < |rest| ensures rest[i].key != list[0].key {
        assert rest[i] in list[1..];
      }
    }
  }

  lemma AttachUnique(list: seq<Alias>, key: string, peer: PeerId)
    requires UniqueKeys(list)
    ensures UniqueKeys(Attach(list, key, peer))
    ensures forall a :: a in Attach(list, key, peer) ==> a in list || a == Alias(key, peer)
  {
    WithoutKeyUnique(list, key);
    var rest := WithoutKey(list, key);
    forall i | 0 <= i < |rest| ensures rest[i].key != key {
      assert rest[i] in rest;
    }
  }

  /** A moved key addresses its new owner alone: it is looked up there, listed
      last among that peer's keys, and no other peer lists it. Every other key
      keeps its owner and its place. Attaching a key to its owner moves nothing. */
  lemma MovedKeyLeavesOldOwner(list: seq<Alias>, key: string, peer: PeerId, other: PeerId, k: string)
    requires UniqueKeys(list)
    ensures Lookup(Attach(list, key, peer), k) == if k == key then Some(peer) else Lookup(list, k)
    ensures Lookup(list, key) != Some(peer) ==>
      KeysOf(Attach(list, key, peer), peer) == Retain(KeysOf(list, peer), key) + [key]
    ensures other != peer ==>
      KeysOf(Attach(list, key, peer), other) == Retain(KeysOf(list, other), key)
    ensures other != peer ==> key !in KeysOf(Attach(list, key, peer), other)
    ensures Lookup(list, key) == Some(peer) ==> KeysOf(Attach(list, key, peer), other) == KeysOf(list, other)
  {
    var rest := WithoutKey(list, key);
    LookupAppend(rest, Alias(key, peer), k);
    LookupWithoutKey(list, key, k);
    KeysAppend(rest, Alias(key, peer), peer);
    KeysAppend(rest, Alias(key, peer), other);
    KeysWithoutKey(list, key, peer);
    KeysWithoutKey(list, key, other);
    AttachUnique(list, key, peer);
    ListedIffAddressed(list, key, other);
    RetainAbsent(KeysOf(list, other), key);
    LookupAppend(rest, Alias(key, peer), key);
    LookupWithoutKey(list, key, key);
    ListedIffAddressed(Attach(list, key, peer), key, other);
  }

  lemma {:induction false} RetainAbsent(keys: seq<string>, key: string)
    ensures key !in keys ==> Retain(keys, key) == keys
    ensures key !in Retain(keys, key)
  {
    if keys != [] {
      RetainAbsent(keys[1..], key);
    }
  }

  // ---- the three maps -----------------------------------------------------

  function Indexed(index: map<PeerId, seq<string>>, peer: PeerId): seq<string> {
    if peer in index then index[peer] else []
  }

  /** The forward map answers as the list's lookup, the reverse index as its
      ordered filter, and no alias points at an absent peer. */
  ghost predicate Refines(
    peers: map<PeerId, Handle>, aliases: map<string, PeerId>, index: map<PeerId, seq<string>>, list: seq<Alias>)
  {
    && UniqueKeys(list)
    && (forall key :: Get(aliases, key) == Lookup(list, key))
    && (forall peer :: Indexed(index, peer) == KeysOf(list, peer))
    && (forall a :: a in list ==> a.peer in peers)
  }

  /** `after` is `before` less those of `keys` that address `id`. */
  ghost predicate IsPurged(before: map<string, PeerId>, keys: seq<string>, id: PeerId, after: map<string, PeerId>) {
    forall key ::
      Get(after, key) == if key in keys && Get(before, key) == Some(id) then None else Get(before, key)
  }

  /** Purging the keys the reverse index lists for a peer, and only where they
      still address it, is deleting that peer from the list. */
  lemma RemoveRefines(
    peers: map<PeerId, Handle>, aliases: map<string, PeerId>, index: map<PeerId, seq<string>>, list: seq<Alias>,
    id: PeerId, purged: map<string, PeerId>)
    requires Refines(peers, aliases, index, list)
    requires IsPurged(aliases, Indexed(index, id), id, purged)
    ensures Refines(peers - {id}, purged, index - {id}, WithoutPeer(list, id))
  {
    WithoutPeerUnique(list, id);
    forall key ensures Get(purged, key) == Lookup(WithoutPeer(list, id), key) {
      ListedIffAddressed(list, key, id);
      LookupWithoutPeer(list, id, key);
      assert Get(aliases, key) == Lookup(list, key);
      assert Indexed(index, id) == KeysOf(list, id);
    }
    forall peer ensures Indexed(index - {id}, peer) == KeysOf(WithoutPeer(list, id), peer) {
      KeysWithoutPeer(list, id, peer);
      assert Indexed(index, peer) == KeysOf(list, peer);
    }
  }

  class PeerRegistry {
    var peers: map<PeerId, Handle>
    var aliases: map<string, PeerId>
    var aliasIndex: map<PeerId, seq<string>>
    ghost var list: seq<Alias>

    ghost predicate Valid()
      reads this
    {
      Refines(peers, aliases, aliasIndex, list)
    }

    constructor ()
      ensures Valid() && peers == map[] && list == []
    {
      peers, aliases, aliasIndex, list := map[], map[], map[], [];
    }

    method Insert(id: PeerId, handle: Handle)
      requires Valid()
      modifies this
      ensures Valid() && peers == old(peers)[id := handle] && list == old(list)
    {
      peers := peers[id := handle];
    }

    method AttachAlias(id: PeerId, key: string) returns (ok: bool)
      requires Valid()
      modifies this
      ensures Valid() && peers == old(peers) && ok == (id in peers)
      ensures list == if ok then Attach(old(list), key, id) else old(list)
    {
      if id !in peers {
        return false;
      }
      var prev := Get(aliases, key);
      aliases := aliases[key := id];
      if prev == Some(id) {
        return true;
      }
      if prev.Some? && prev.value in aliasIndex {
        var kept := RetainOthers(aliasIndex[prev.value], key);
        aliasIndex := aliasIndex[prev.value := kept];
      }
      aliasIndex := aliasIndex[id := Indexed(aliasIndex, id) + [key]];
      list := Attach(list, key, id);
      AttachRefines(old(peers), old(aliases), old(aliasIndex), old(list), key, id);
      ok := true;
    }

    /** `Vec::retain` with one key to drop. */
    method RetainOthers(keys: seq<string>, key: string) returns (kept: seq<string>)
      ensures kept == Retain(keys, key)
    {
      kept := [];
      var i := |keys|;
      assert keys[i..] == [];
      while i > 0
        invariant i <= |keys| && kept == Retain(keys[i..], key)
      {
        i := i - 1;
        assert keys[i..][1..] == keys[i + 1..];
        if keys[i] != key {
          kept := [keys[i]] + kept;
        }
      }
      assert keys[0..] == keys;
    }

    method GetBy(key: string) returns (r: Option<Handle>)
      requires Valid()
      ensures r == match Lookup(list, key)
        case None => None
        case Some(id) => Get(peers, id)
      ensures Lookup(list, key).Some? ==> r.Some?
    {
      assert Get(aliases, key) == Lookup(list, key);
      if key !in aliases {
        return None;
      }
      AddressedIsListed(list, key);
      r := Get(peers, aliases[key]);
    }

    method AliasesFor(id: PeerId) returns (keys: seq<string>)
      requires Valid()
      ensures keys == KeysOf(list, id)
    {
      keys := Indexed(aliasIndex, id);
    }

    method KeyFor(id: PeerId) returns (key: Option<string>)
      requires Valid()
      ensures key == if KeysOf(list, id) == [] then None else Some(KeysOf(list, id)[0])
    {
      assert Indexed(aliasIndex, id) == KeysOf(list, id);
      if id !in aliasIndex || aliasIndex[id] == [] {
        return None;
      }
      key := Some(aliasIndex[id][0]);
    }

    /** Drop the peer and every alias of it, reached through the reverse index. */
    method Remove(id: PeerId) returns (removed: Option<Handle>)
      requires Valid()
      modifies this
      ensures Valid() && removed == old(Get(peers, id))
      ensures peers == old(peers) - {id} && list == WithoutPeer(old(list), id)
    {
      removed := Get(peers, id);
      peers := peers - {id};
      var keys := Indexed(aliasIndex, id);
      aliasIndex := aliasIndex - {id};
      PurgeAliases(keys, id);
      RemoveRefines(old(peers), old(aliases), old(aliasIndex), list, id, aliases);
      list := WithoutPeer(list, id);
    }

    /** Delete each key from the forward map if it still addresses `id`. */
    method PurgeAliases(keys: seq<string>, id: PeerId)
      modifies this`aliases
      ensures IsPurged(old(aliases), keys, id, aliases)
    {
      for i := 0 to |keys|
        invariant IsPurged(old(aliases), keys[..i], id, aliases)
      {
        if Get(aliases, keys[i]) == Some(id) {
          aliases := aliases - {keys[i]};
        }
        assert keys[..i + 1] == keys[..i] + [keys[i]];
      }
      assert keys[..|keys|] == keys;
    }
  }

  lemma {:induction false} AddressedIsListed(list: seq<Alias>, key: string)
    requires Lookup(list, key).Some?
    ensures Alias(key, Lookup(list, key).value) in list
  {
    if list[0].key != key {
      AddressedIsListed(list[1..], key);
    }
  }

  function Detached(index: map<PeerId, seq<string>>, prev: Option<PeerId>, key: string): map<PeerId, seq<string>> {
    if prev.Some? && prev.value in index then index[prev.value := Retain(index[prev.value], key)] else index
  }

  lemma AttachRefines(
    peers: map<PeerId, Handle>, aliases: map<string, PeerId>, index: map<PeerId, seq<string>>, list: seq<Alias>,
    key: string, id: PeerId)
    requires Refines(peers, aliases, index, list) && id in peers && Get(aliases, key) != Some(id)
    ensures var detached := Detached(index, Get(aliases, key), key);
      Refines(peers, aliases[key := id], detached[id := Indexed(detached, id) + [key]], Attach(list, key, id))
  {
    var detached := Detached(index, Get(aliases, key), key);
    var list' := Attach(list, key, id);
    AttachUnique(list, key, id);
    assert Get(aliases, key) == Lookup(list, key);
    forall k ensures Get(aliases[key := id], k) == Lookup(list', k) {
      MovedKeyLeavesOldOwner(list, key, id, id, k);
      assert Get(aliases, k) == Lookup(list, k);
    }
    forall p ensures Indexed(detached[id := Indexed(detached, id) + [key]], p) == KeysOf(list', p) {
      MovedKeyLeavesOldOwner(list, key, id, p, key);
      ListedIffAddressed(list, key, p);
      RetainAbsent(KeysOf(list, p), key);
      ListedIffAddressed(list, key, id);
      RetainAbsent(KeysOf(list, id), key);
      assert Indexed(index, p) == KeysOf(list, p) && Indexed(index, id) == KeysOf(list, id);
    }
  }
}
