/** The digest behind both fingerprints of the execution guard. */
module GuardFingerprint {
  import opened Text
  import Json = CanonicalJson
  import Guard = ExecutionGuard

  const NAMES := {"repository", "task_id", "task_head_sha", "phase", "blocking_dependency", "dependency_kind",
                  "gate_state", "first_material_failure"}

  function Field(m: Guard.Material, name: string): string
  {
    if name == "repository" then m.repository
    else if name == "task_id" then m.taskId
    else if name == "task_head_sha" then m.headSha
    else if name == "phase" then m.phase
    else if name == "blocking_dependency" then m.blockingDependency
    else if name == "dependency_kind" then m.dependencyKind
    else if name == "gate_state" then m.gateState
    else m.firstFailure
  }

  /** A dictionary of texts. */
  function Entries(names: set<string>, field: string -> string): (v: Json.Value)
    ensures v.Dict?
  {
    FromStringInjectiveAll();
    Json.Dict(map n | n in names :: Json.TextKey(FromString(n)) := Json.Str(FromString(field(n))))
  }

  lemma EntryAt(names: set<string>, field: string -> string, name: string)
    requires name in names
    ensures Json.TextKey(FromString(name)) in Entries(names, field).entries
    ensures Entries(names, field).entries[Json.TextKey(FromString(name))] == Json.Str(FromString(field(name)))
  {
    FromStringInjectiveAll();
    var key := Json.TextKey(FromString(name));
    assert key in Entries(names, field).entries;
    var n :| n in names && key == Json.TextKey(FromString(n)) &&
             Entries(names, field).entries[key] == Json.Str(FromString(field(n)));
    FromStringInjective(n, name);
  }

  lemma EntriesFit(names: set<string>, field: string -> string)
    ensures Json.Fits(Entries(names, field))
  {
    forall k | k in Entries(names, field).entries
      ensures k.TextKey? && Json.Joined(k.text)
      ensures Entries(names, field).entries[k].Str? && Json.Joined(Entries(names, field).entries[k].text)
    {
    }
  }

  function FieldOf(m: Guard.Material): string -> string
  {
    name => Field(m, name)
  }

  /** The dictionary that both fingerprints digest. */
  function Fields(m: Guard.Material): (v: Json.Value)
    ensures v.Dict?
  {
    Entries(NAMES, FieldOf(m))
  }

  lemma FieldsFit(m: Guard.Material)
    ensures Json.Fits(Fields(m))
  {
    EntriesFit(NAMES, FieldOf(m));
  }

  /** Equal dictionaries give equal texts under every name. */
  lemma EntriesInjective(names: set<string>, f: string -> string, g: string -> string, name: string)
    requires Entries(names, f) == Entries(names, g) && name in names
    ensures f(name) == g(name)
  {
    EntryAt(names, f, name);
    EntryAt(names, g, name);
    FromStringInjective(f(name), g(name));
  }

  /** `digest` stands for SHA-256 in hexadecimal. */
  function Digest(digest: string -> string): Guard.Material -> string
  {
    (m: Guard.Material) => (FieldsFit(m); digest(Json.Encode(Fields(m))))
  }

  lemma SameField(m: Guard.Material, n: Guard.Material, name: string)
    requires Fields(m) == Fields(n) && name in NAMES
    ensures Field(m, name) == Field(n, name)
  {
    EntriesInjective(NAMES, FieldOf(m), FieldOf(n), name);
  }

  lemma FieldsInjective(m: Guard.Material, n: Guard.Material)
    requires Fields(m) == Fields(n)
    ensures m == n
  {
    SameField(m, n, "repository");
    SameField(m, n, "task_id");
    SameField(m, n, "task_head_sha");
    SameField(m, n, "phase");
    SameField(m, n, "blocking_dependency");
    SameField(m, n, "dependency_kind");
    SameField(m, n, "gate_state");
    SameField(m, n, "first_material_failure");
  }

  /** The digested texts are equal exactly for equal material fields: only the digest itself can confuse two snapshots. */
  lemma PayloadExact(m: Guard.Material, n: Guard.Material)
    ensures Json.Fits(Fields(m)) && Json.Fits(Fields(n))
    ensures Json.Encode(Fields(m)) == Json.Encode(Fields(n)) <==> m == n
  {
    FieldsFit(m);
    FieldsFit(n);
    Json.EncodeExact(Fields(m), Fields(n));
    if Fields(m) == Fields(n) {
      FieldsInjective(m, n);
    }
  }
}
