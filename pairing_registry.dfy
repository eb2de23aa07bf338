/**
 * The controller's pairing registry as a value: the dict `Controller.pairings`
 * from alias to pairing, together with the order in which a Python dict
 * iterates its keys (insertion order, an overwritten key keeping its place).
 * These functions specify the methods of `Controller.Controller`.
 */
module PairingRegistry {
  import opened Common
  import opened Exceptions
  import opened Support

  /** The `pairing_data` dict of one pairing. */
  type PairingData = map<string, string>

  /** An `IpPairing` or a `BlePairing` built around its `pairing_data`. */
  datatype Pairing = IpPairing(pairingData: PairingData) | BlePairing(pairingData: PairingData)

  const ConnectionKey: string := "Connection"
  const PairingIdKey: string := "iOSPairingId"

  datatype Registry = Registry(order: seq<string>, pairings: map<string, Pairing>)

  const Empty: Registry := Registry([], map[])

  predicate Distinct(s: seq<string>) {
    forall i, j :: 0 <= i < j < |s| ==> s[i] != s[j]
  }

  /**
   * A pairing `load_pairing` can have built: its record names its kind under
   * `Connection`, and that transport is supported.
   */
  predicate IsLoadedPairing(t: Transports, p: Pairing) {
    && ConnectionKey in p.pairingData
    && match p
       case IpPairing(d) => d[ConnectionKey] == "IP" && t.ip
       case BlePairing(d) => d[ConnectionKey] == "BLE" && t.ble
  }

  /** The order lists each alias of the dict once, and every pairing is one `load_pairing` built. */
  ghost predicate Valid(reg: Registry, t: Transports) {
    && Distinct(reg.order)
    && (forall a :: a in reg.pairings <==> a in reg.order)
    && (forall a :: a in reg.pairings ==> IsLoadedPairing(t, reg.pairings[a]))
  }

  /** Lines 171-172 of `load_pairing`: a record without `Connection` is taken as an IP record. */
  function WithDefaultConnection(data: PairingData): (d: PairingData)
    ensures ConnectionKey in d
    ensures ConnectionKey in data ==> d == data
    ensures ConnectionKey !in data ==> d[ConnectionKey] == "IP"
    ensures forall k :: k != ConnectionKey ==> (k in d <==> k in data)
    ensures forall k :: k != ConnectionKey && k in d ==> d[k] == data[k]
  {
    if ConnectionKey in data then data else data[ConnectionKey := "IP"]
  }

  /**
   * The dispatch of `load_pairing` on `Connection`: "IP" and "BLE" build the
   * matching pairing when that transport is supported, and raise
   * TransportNotSupportedError when it is not; any other value raises
   * NotImplementedError naming it.
   */
  function BuildPairing(t: Transports, data: PairingData): (r: Result<Pairing, Error>)
    requires ConnectionKey in data
    ensures r.Success? <==> (data[ConnectionKey] == "IP" && t.ip) || (data[ConnectionKey] == "BLE" && t.ble)
    ensures r.Success? ==> r.value.pairingData == data && IsLoadedPairing(t, r.value)
    ensures r.Failure? && data[ConnectionKey] == "IP" ==> r.error == TransportNotSupported("IP")
    ensures r.Failure? && data[ConnectionKey] == "BLE" ==> r.error == TransportNotSupported("BLE")
    ensures data[ConnectionKey] != "IP" && data[ConnectionKey] != "BLE" ==>
      r == Failure(NotImplemented(data[ConnectionKey] + " support"))
  {
    var connection := data[ConnectionKey];
    if connection == "IP" then
      if !t.ip then Failure(TransportNotSupported("IP")) else Success(IpPairing(data))
    else if connection == "BLE" then
      if !t.ble then Failure(TransportNotSupported("BLE")) else Success(BlePairing(data))
    else
      Failure(NotImplemented(connection + " support"))
  }

  /** Rebuilding a loaded pairing from its own record gives it back. */
  lemma RebuildLoadedPairing(t: Transports, p: Pairing)
    requires IsLoadedPairing(t, p)
    ensures WithDefaultConnection(p.pairingData) == p.pairingData
    ensures BuildPairing(t, p.pairingData) == Success(p)
  {
  }

  /** `self.pairings[alias] = p`: last writer wins, a new alias goes last, nothing else changes. */
  function Put(reg: Registry, alias: string, p: Pairing): (r: Registry)
    requires forall a :: a in reg.pairings <==> a in reg.order
    ensures alias in r.pairings && r.pairings[alias] == p
    ensures forall a :: a != alias ==> (a in r.pairings <==> a in reg.pairings)
    ensures forall a :: a != alias && a in reg.pairings ==> r.pairings[a] == reg.pairings[a]
    ensures |reg.order| <= |r.order| && r.order[..|reg.order|] == reg.order
    ensures alias in reg.pairings ==> r.order == reg.order
    ensures alias !in reg.pairings ==> r.order[|reg.order|..] == [alias]
  {
    if alias in reg.pairings then Registry(reg.order, reg.pairings[alias := p])
    else Registry(reg.order + [alias], reg.pairings[alias := p])
  }

  lemma PutValid(reg: Registry, t: Transports, alias: string, p: Pairing)
    requires Valid(reg, t) && IsLoadedPairing(t, p)
    ensures Valid(Put(reg, alias, p), t)
  {
  }

  lemma PutKeepsValid(reg: Registry, t: Transports, alias: string, p: Pairing)
    requires forall a :: a in reg.pairings <==> a in reg.order
    requires IsLoadedPairing(t, p)
    ensures Valid(reg, t) ==> Valid(Put(reg, alias, p), t)
  {
    if Valid(reg, t) {
      PutValid(reg, t, alias, p);
    }
  }

  /** `s` without `x`, order kept. */
  function Without(s: seq<string>, x: string): (r: seq<string>)
    ensures forall y :: y in r <==> y in s && y != x
    ensures x !in s ==> r == s
  {
    if s == [] then []
    else if s[0] == x then Without(s[1..], x)
    else [s[0]] + Without(s[1..], x)
  }

  /** Deleting the one occurrence of `x`, at index `k`, keeps the other elements in their order. */
  lemma {:induction false} WithoutDropsOne(s: seq<string>, x: string, k: nat)
    requires k < |s| && s[k] == x && x !in s[..k] && x !in s[k + 1..]
    ensures Without(s, x) == s[..k] + s[k + 1..]
  {
    if k == 0 {
      assert s[..0] + s[1..] == s[1..];
    } else {
      assert s[0] != x by { assert s[..k][0] == s[0]; }
      var t := s[1..];
      assert t[k - 1] == x;
      assert t[..k - 1] == s[1..k] && t[k..] == s[k + 1..];
      assert x !in t[..k - 1];
      WithoutDropsOne(t, x, k - 1);
      assert s[..k] == [s[0]] + s[1..k];
    }
  }

  lemma {:induction false} WithoutKeepsDistinct(s: seq<string>, x: string)
    requires Distinct(s)
    ensures Distinct(Without(s, x))
  {
    if s != [] {
      assert Distinct(s[1..]) by {
        forall i, j | 0 <= i < j < |s[1..]| ensures s[1..][i] != s[1..][j] {
          assert s[i + 1] != s[j + 1];
        }
      }
      WithoutKeepsDistinct(s[1..], x);
      if s[0] != x {
        assert s[0] !in s[1..] by {
          forall i | 0 <= i < |s[1..]| ensures s[1..][i] != s[0] {
            assert s[i + 1] != s[0];
          }
        }
        DistinctCons(s[0], Without(s[1..], x));
      }
    }
  }

  lemma DistinctCons(a: string, r: seq<string>)
    requires a !in r && Distinct(r)
    ensures Distinct([a] + r)
  {
    forall i, j | 0 <= i < j < |[a] + r| ensures ([a] + r)[i] != ([a] + r)[j] {
      if i > 0 {
        assert ([a] + r)[i] == r[i - 1];
      }
      assert ([a] + r)[j] == r[j - 1];
    }
  }

  /** `del self.pairings[alias]`. */
  function Remove(reg: Registry, alias: string): (r: Registry)
    ensures alias !in r.pairings
    ensures forall a :: a != alias ==> (a in r.pairings <==> a in reg.pairings)
    ensures forall a :: a in r.pairings ==> r.pairings[a] == reg.pairings[a]
    ensures alias !in reg.order ==> r.order == reg.order
    ensures forall k :: 0 <= k < |reg.order| && reg.order[k] == alias && alias !in reg.order[..k] && alias !in reg.order[k + 1..] ==>
      r.order == reg.order[..k] + reg.order[k + 1..]
  {
    assert forall k :: 0 <= k < |reg.order| && reg.order[k] == alias && alias !in reg.order[..k] && alias !in reg.order[k + 1..] ==>
      Without(reg.order, alias) == reg.order[..k] + reg.order[k + 1..] by {
      forall k | 0 <= k < |reg.order| && reg.order[k] == alias && alias !in reg.order[..k] && alias !in reg.order[k + 1..] {
        WithoutDropsOne(reg.order, alias, k);
      }
    }
    Registry(Without(reg.order, alias), reg.pairings - {alias})
  }

  lemma RemoveValid(reg: Registry, t: Transports, alias: string)
    requires Valid(reg, t)
    ensures Valid(Remove(reg, alias), t)
  {
    WithoutKeepsDistinct(reg.order, alias);
  }

  /** Removing an alias that was just added restores the registry. */
  lemma RemoveUndoesPut(reg: Registry, t: Transports, alias: string, p: Pairing)
    requires Valid(reg, t) && alias !in reg.pairings
    ensures Remove(Put(reg, alias, p), alias) == reg
  {
    WithoutAppended(reg.order, alias);
    assert reg.pairings[alias := p] - {alias} == reg.pairings;
  }

  lemma {:induction false} WithoutAppended(s: seq<string>, x: string)
    requires x !in s
    ensures Without(s + [x], x) == s
  {
    if s != [] {
      assert (s + [x])[1..] == s[1..] + [x];
      WithoutAppended(s[1..], x);
    } else {
      assert s + [x] == [x];
      assert [x][1..] == [];
    }
  }

  /** What `load_data` leaves behind: the registry, and the exception that ended the loop, if any. */
  datatype LoadResult = LoadResult(registry: Registry, error: Option<Error>)

  /**
   * `load_pairing` on each entry of a parsed document in order, stopping at the
   * first that raises; the entries loaded before it stay.
   */
  function LoadAll(reg: Registry, t: Transports, doc: seq<(string, PairingData)>): (r: LoadResult)
    requires forall a :: a in reg.pairings <==> a in reg.order
    ensures forall a :: a in r.registry.pairings <==> a in r.registry.order
    ensures Valid(reg, t) ==> Valid(r.registry, t)
    ensures forall a :: a in reg.pairings ==> a in r.registry.pairings
    ensures r.error.Some? ==> r.error.value.TransportNotSupported? || r.error.value.NotImplemented?
    ensures r.error.None? ==> forall e :: e in doc ==> e.0 in r.registry.pairings
    decreases |doc|
  {
    if doc == [] then LoadResult(reg, None)
    else
      var built := BuildPairing(t, WithDefaultConnection(doc[0].1));
      if built.Failure? then LoadResult(reg, Some(built.error))
      else
        PutKeepsValid(reg, t, doc[0].0, built.value);
        var r := LoadAll(Put(reg, doc[0].0, built.value), t, doc[1..]);
        assert forall e :: e in doc ==> e == doc[0] || e in doc[1..];
        r
  }

  /** Loading `a + b` is loading `a`, then, unless that raised, loading `b` into the result. */
  lemma {:induction false} LoadAllAppend(reg: Registry, t: Transports, a: seq<(string, PairingData)>, b: seq<(string, PairingData)>)
    requires forall k :: k in reg.pairings <==> k in reg.order
    ensures LoadAll(reg, t, a + b) ==
      var first := LoadAll(reg, t, a);
      if first.error.Some? then first else LoadAll(first.registry, t, b)
    decreases |a|
  {
    if a == [] {
      assert a + b == b;
    } else {
      assert (a + b)[0] == a[0];
      assert (a + b)[1..] == a[1..] + b;
      var data' := WithDefaultConnection(a[0].1);
      if BuildPairing(t, data').Success? {
        LoadAllAppend(Put(reg, a[0].0, BuildPairing(t, data').value), t, a[1..], b);
      }
    }
  }

  /**
   * When entry `k` is the first whose pairing cannot be built, loading stops
   * with its exception, keeping exactly what the entries before it loaded.
   */
  lemma LoadAllStopsAtFirstFailure(reg: Registry, t: Transports, doc: seq<(string, PairingData)>, k: nat)
    requires forall a :: a in reg.pairings <==> a in reg.order
    requires k < |doc|
    requires LoadAll(reg, t, doc[..k]).error.None?
    requires BuildPairing(t, WithDefaultConnection(doc[k].1)).Failure?
    ensures LoadAll(reg, t, doc) ==
      LoadResult(LoadAll(reg, t, doc[..k]).registry, Some(BuildPairing(t, WithDefaultConnection(doc[k].1)).error))
  {
    LoadAllSplitAt(reg, t, doc, k);
    assert doc[k..][0] == doc[k];
    LoadAllFailsFirst(LoadAll(reg, t, doc[..k]).registry, t, doc[k..]);
  }

  /** When the first `k` entries load without error, the rest load into what they left. */
  lemma LoadAllSplitAt(reg: Registry, t: Transports, doc: seq<(string, PairingData)>, k: nat)
    requires forall a :: a in reg.pairings <==> a in reg.order
    requires k <= |doc| && LoadAll(reg, t, doc[..k]).error.None?
    ensures LoadAll(reg, t, doc) == LoadAll(LoadAll(reg, t, doc[..k]).registry, t, doc[k..])
  {
    assert doc == doc[..k] + doc[k..];
    LoadAllAppend(reg, t, doc[..k], doc[k..]);
  }

  /** An entry whose pairing cannot be built ends loading at once. */
  lemma LoadAllFailsFirst(reg: Registry, t: Transports, doc: seq<(string, PairingData)>)
    requires forall a :: a in reg.pairings <==> a in reg.order
    requires doc != [] && BuildPairing(t, WithDefaultConnection(doc[0].1)).Failure?
    ensures LoadAll(reg, t, doc) == LoadResult(reg, Some(BuildPairing(t, WithDefaultConnection(doc[0].1)).error))
  {
  }

  /** The dict `save_data` writes: each alias in order, mapped to its pairing's `pairing_data`. */
  function SaveDocument(reg: Registry): (doc: seq<(string, PairingData)>)
    requires forall a :: a in reg.order ==> a in reg.pairings
    ensures |doc| == |reg.order|
    ensures forall i :: 0 <= i < |doc| ==> doc[i] == (reg.order[i], reg.pairings[reg.order[i]].pairingData)
  {
    seq(|reg.order|, i requires 0 <= i < |reg.order| => (reg.order[i], reg.pairings[reg.order[i]].pairingData))
  }

  /** The first `k` aliases of a registry, with their pairings. */
  function Prefix(reg: Registry, k: nat): Registry
    requires k <= |reg.order|
    requires forall a :: a in reg.order ==> a in reg.pairings
  {
    Registry(reg.order[..k], map a | a in reg.order[..k] :: reg.pairings[a])
  }

  /** Adding the next saved alias to a prefix gives the next prefix. */
  lemma PutExtendsPrefix(reg: Registry, k: nat)
    requires Distinct(reg.order) && k < |reg.order|
    requires forall a :: a in reg.pairings <==> a in reg.order
    ensures Put(Prefix(reg, k), reg.order[k], reg.pairings[reg.order[k]]) == Prefix(reg, k + 1)
  {
    var alias := reg.order[k];
    var before := Prefix(reg, k);
    var after := Prefix(reg, k + 1);
    assert alias !in reg.order[..k] by {
      forall i | 0 <= i < k ensures reg.order[..k][i] != alias {
        assert reg.order[i] != reg.order[k];
      }
    }
    assert reg.order[..k + 1] == reg.order[..k] + [alias];
    var put := Put(before, alias, reg.pairings[alias]);
    assert put.order == after.order;
    assert put.pairings == after.pairings by {
      forall a ensures a in put.pairings <==> a in after.pairings {
        assert a in reg.order[..k + 1] <==> a in reg.order[..k] || a == alias;
      }
    }
  }

  /** Loading the rest of the saved document after its first `k` entries completes the registry. */
  lemma {:induction false} LoadSavedSuffix(reg: Registry, t: Transports, k: nat)
    requires Valid(reg, t) && k <= |reg.order|
    ensures LoadAll(Prefix(reg, k), t, SaveDocument(reg)[k..]) == LoadResult(reg, None)
    decreases |reg.order| - k
  {
    var doc := SaveDocument(reg);
    if k == |reg.order| {
      assert reg.order[..k] == reg.order;
      assert Prefix(reg, k) == reg;
    } else {
      var alias := reg.order[k];
      var p := reg.pairings[alias];
      RebuildLoadedPairing(t, p);
      assert doc[k..][0] == (alias, p.pairingData);
      assert doc[k..][1..] == doc[k + 1..];
      PutExtendsPrefix(reg, k);
      LoadSavedSuffix(reg, t, k + 1);
    }
  }

  /**
   * Saving a registry and loading the document into an empty controller with
   * the same transports reproduces the registry: the same aliases, in the
   * same order, with the same pairing data.
   */
  lemma SaveLoadRoundTrip(reg: Registry, t: Transports)
    requires Valid(reg, t)
    ensures LoadAll(Empty, t, SaveDocument(reg)) == LoadResult(reg, None)
  {
    LoadSavedSuffix(reg, t, 0);
    assert Prefix(reg, 0) == Empty;
    assert SaveDocument(reg)[0..] == SaveDocument(reg);
  }
}
