/** The session registry and its password check (session_mgr.rs). */
module SessionMgr {
  import opened Wrappers
  import opened Sequences
  import opened Names
  import opened Hub

  // The status channel and the cancellation token of a session are not looked at here.
  datatype SessionEntry = SessionEntry(name: string, password: Chunk, hub: Hub, clients: ClientRegistry)

  datatype RegisterError = InvalidName | AlreadyExists

  lemma OrXorZero(diff: bv8, x: bv8, y: bv8)
    ensures (diff | (x ^ y)) == 0 <==> diff == 0 && x == y
  {
  }

  // The OR-accumulating byte loop decides equality.
  method ConstantTimeEq(a: Chunk, b: Chunk) returns (eq: bool)
    ensures eq <==> a == b
  {
    if |a| != |b| {
      return false;
    }
    var diff: bv8 := 0;
    for i := 0 to |a|
      invariant diff == 0 <==> a[..i] == b[..i]
    {
      OrXorZero(diff, a[i], b[i]);
      assert a[..i + 1] == a[..i] + [a[i]] && b[..i + 1] == b[..i] + [b[i]];
      diff := diff | (a[i] ^ b[i]);
    }
    assert a[..|a|] == a && b[..|b|] == b;
    return diff == 0;
  }

  // Every entry is filed under the normalised form of its name.
  predicate KeysNormalized(inner: map<string, SessionEntry>) {
    forall k :: k in inner ==> NormalizeName(inner[k].name) == Some(k)
  }

  function Lookup(inner: map<string, SessionEntry>, name: string): Option<SessionEntry> {
    var key := NormalizeName(name);
    if key.Some? && key.value in inner then Some(inner[key.value]) else None
  }

  // No two entries have names that differ in case only.
  lemma UniqueIgnoringCase(inner: map<string, SessionEntry>, j: string, k: string)
    requires KeysNormalized(inner) && j in inner && k in inner
    requires Lower(inner[j].name) == Lower(inner[k].name)
    ensures j == k
  {
    CaseDoesNotMatter(inner[j].name, inner[k].name);
  }

  // A lookup finds an entry exactly when one is registered under the same name up to case, and that one.
  lemma LookupIgnoresCase(inner: map<string, SessionEntry>, name: string, e: SessionEntry)
    requires KeysNormalized(inner)
    ensures Lookup(inner, name) == Some(e) <==> e in inner.Values && Lower(e.name) == Lower(name)
  {
    if e in inner.Values && Lower(e.name) == Lower(name) {
      var k :| k in inner && inner[k] == e;
      CaseDoesNotMatter(e.name, name);
    }
  }

  class SessionMgr {
    var inner: map<string, SessionEntry>

    ghost predicate Valid()
      reads this
    {
      KeysNormalized(inner)
    }

    constructor ()
      ensures Valid() && inner == map[]
    {
      inner := map[];
    }

    method Register(name: string, password: Chunk, hub: Hub) returns (r: Result<(), RegisterError>)
      requires Valid()
      modifies this
      ensures Valid()
      ensures r == Failure(InvalidName) <==> !AllowedName(name)
      ensures r == Failure(AlreadyExists) <==>
                AllowedName(name) && exists k :: k in old(inner) && Lower(old(inner)[k].name) == Lower(name)
      ensures r.Success? <==>
                AllowedName(name) && forall k :: k in old(inner) ==> Lower(old(inner)[k].name) != Lower(name)
      ensures r.Failure? ==> inner == old(inner)
      ensures r.Success? ==>
                && Lower(name) in inner
                && var e := inner[Lower(name)];
                   && e.name == name && e.password == password && e.hub == hub
                   && fresh(e.clients) && e.clients.Valid() && e.clients.clients == map[]
                   && inner == old(inner)[Lower(name) := e]
    {
      var key := NormalizeName(name);
      if key.None? {
        return Failure(InvalidName);
      }
      forall k | k in inner && Lower(inner[k].name) == Lower(name) ensures k == key.value {
        CaseDoesNotMatter(inner[k].name, name);
      }
      if key.value in inner {
        return Failure(AlreadyExists);
      }
      var clients := new ClientRegistry();
      inner := inner[key.value := SessionEntry(name, password, hub, clients)];
      return Success(());
    }

    method Unregister(name: string) returns (r: Option<SessionEntry>)
      requires Valid()
      modifies this
      ensures Valid() && r == Lookup(old(inner), name)
      ensures inner == if r.Some? then old(inner) - {Lower(name)} else old(inner)
    {
      var key := NormalizeName(name);
      if key.None? || key.value !in inner {
        return None;
      }
      r := Some(inner[key.value]);
      inner := inner - {key.value};
    }

    method Get(name: string) returns (r: Option<SessionEntry>)
      requires Valid()
      ensures r == Lookup(inner, name)
    {
      var key := NormalizeName(name);
      if key.None? || key.value !in inner {
        return None;
      }
      return Some(inner[key.value]);
    }

    // Succeeds exactly when an entry has this name up to case and this password, and returns that entry.
    method Authenticate(name: string, password: Chunk) returns (r: Option<SessionEntry>)
      requires Valid()
      ensures r.Some? <==> exists e :: e in inner.Values && Lower(e.name) == Lower(name) && e.password == password
      ensures r.Some? ==> r.value in inner.Values && Lower(r.value.name) == Lower(name) && r.value.password == password
    {
      var entry := Get(name);
      forall e | e in inner.Values ensures Lookup(inner, name) == Some(e) <==> Lower(e.name) == Lower(name) {
        LookupIgnoresCase(inner, name, e);
      }
      if entry.None? {
        return None;
      }
      var eq := ConstantTimeEq(entry.value.password, password);
      return if eq then entry else None;
    }
  }
}
