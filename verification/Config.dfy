/** The part of the gateway configuration that admission depends on: model entries,
    their names, name lookup, and the validator that keeps names unambiguous. */
module Config {
  import opened Wrappers

  datatype ModelEntry = ModelEntry(id: string, aliases: seq<string>)

  datatype GatewayConfig = GatewayConfig(models: seq<ModelEntry>, maxQueueSize: nat)

  /** `m` answers to `name`. */
  predicate Answers(m: ModelEntry, name: string) {
    name == m.id || name in m.aliases
  }

  /** The first entry that answers to `name`; None is the 404 of the source. */
  function Lookup(models: seq<ModelEntry>, name: string): Option<ModelEntry> {
    if models == [] then None
    else if Answers(models[0], name) then Some(models[0])
    else Lookup(models[1..], name)
  }

  /** Any two entries that share a name share their id. */
  ghost predicate Unambiguous(models: seq<ModelEntry>) {
    forall i, j, name ::
      0 <= i < |models| && 0 <= j < |models| && Answers(models[i], name) && Answers(models[j], name)
      ==> models[i].id == models[j].id
  }

  lemma {:induction false} LookupIsFirstAnswer(models: seq<ModelEntry>, name: string)
    ensures Lookup(models, name).None? <==> forall i :: 0 <= i < |models| ==> !Answers(models[i], name)
    ensures Lookup(models, name).Some? ==>
              exists i :: 0 <= i < |models| && models[i] == Lookup(models, name).value && Answers(models[i], name)
                          && forall j :: 0 <= j < i ==> !Answers(models[j], name)
  {
    if models == [] {
    } else if Answers(models[0], name) {
    } else {
      LookupIsFirstAnswer(models[1..], name);
      forall i | 0 <= i < |models| ensures i > 0 ==> models[i] == models[1..][i - 1] {}
      if Lookup(models[1..], name).Some? {
        var i :| 0 <= i < |models[1..]| && models[1..][i] == Lookup(models, name).value && Answers(models[1..][i], name)
                 && forall j :: 0 <= j < i ==> !Answers(models[1..][j], name);
        assert models[i + 1] == Lookup(models, name).value;
        forall j | 0 <= j < i + 1 ensures !Answers(models[j], name) {
          assert j > 0 ==> models[j] == models[1..][j - 1];
        }
      } else {
        forall i | 0 <= i < |models| ensures !Answers(models[i], name) {
          assert i > 0 ==> models[i] == models[1..][i - 1];
        }
      }
    }
  }

  /** With unambiguous names, whichever entry lists a name, lookup finds one with that entry's id. */
  lemma LookupFindsTheId(models: seq<ModelEntry>, k: nat, name: string)
    requires Unambiguous(models) && k < |models| && Answers(models[k], name)
    ensures Lookup(models, name).Some? && Lookup(models, name).value.id == models[k].id
  {
    LookupIsFirstAnswer(models, name);
  }

  method LookupEntry(models: seq<ModelEntry>, name: string) returns (found: Option<ModelEntry>)
    ensures found == Lookup(models, name)
  {
    for i := 0 to |models|
      invariant Lookup(models, name) == Lookup(models[i..], name)
    {
      if Answers(models[i], name) {
        return Some(models[i]);
      }
    }
    return None;
  }

  /** The name, and the two ids that claim it. */
  datatype Clash = Clash(name: string, first: string, second: string)

  /** The inner loop: record every name of one entry under its id. */
  method RecordNames(m: ModelEntry, before: map<string, string>) returns (r: Result<map<string, string>, Clash>)
    ensures r.Success? ==>
              && (forall name :: name in before ==> name in r.value && r.value[name] == before[name])
              && (forall name :: Answers(m, name) ==> name in r.value && r.value[name] == m.id)
              && (forall name :: name in r.value ==> name in before || Answers(m, name))
    ensures r.Failure? ==> Answers(m, r.error.name) && r.error.name in before
                           && before[r.error.name] == r.error.first && r.error.second == m.id != r.error.first
  {
    var seen := before;
    var names := [m.id] + m.aliases;
    for n := 0 to |names|
      invariant forall name :: name in before ==> name in seen && seen[name] == before[name]
      invariant forall i :: 0 <= i < n ==> names[i] in seen && seen[names[i]] == m.id
      invariant forall name :: name in seen ==> name in before || (Answers(m, name) && seen[name] == m.id)
    {
      var name := names[n];
      assert Answers(m, name);
      if name in seen && seen[name] != m.id {
        return Failure(Clash(name, seen[name], m.id));
      }
      if name !in seen {
        seen := seen[name := m.id];
      }
    }
    forall name | Answers(m, name) ensures name in seen && seen[name] == m.id {
      assert name == names[0] || exists i :: 0 <= i < |m.aliases| && m.aliases[i] == name == names[i + 1];
    }
    r := Success(seen);
  }

  /** The validator accepts exactly the unambiguous configurations, and a rejection names a real clash. */
  method UniqueIds(models: seq<ModelEntry>) returns (r: Result<(), Clash>)
    ensures r.Success? <==> Unambiguous(models)
    ensures r.Failure? ==> exists i, j ::
              0 <= i < |models| && 0 <= j < |models| && Answers(models[i], r.error.name) && Answers(models[j], r.error.name)
              && models[i].id == r.error.first && models[j].id == r.error.second && r.error.first != r.error.second
  {
    var seen: map<string, string> := map[];
    for k := 0 to |models|
      invariant forall i, name :: 0 <= i < k && Answers(models[i], name) ==> name in seen && seen[name] == models[i].id
      invariant forall name :: name in seen ==> exists i :: 0 <= i < k && Answers(models[i], name)
    {
      var recorded := RecordNames(models[k], seen);
      if recorded.Failure? {
        ghost var name := recorded.error.name;
        ghost var i :| 0 <= i < k && Answers(models[i], name);
        assert Answers(models[k], name) && models[i].id != models[k].id;
        return Failure(recorded.error);
      }
      seen := recorded.value;
    }
    forall i, j, name | 0 <= i < |models| && 0 <= j < |models| && Answers(models[i], name) && Answers(models[j], name)
      ensures models[i].id == models[j].id
    {
      assert seen[name] == models[i].id;
    }
    r := Success(());
  }
}
