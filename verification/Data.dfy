/** Extraction keys and extracted values: what the loops of
    OnResolveKeysCompleted and OnExtractCompleted amount to, and that what they
    write is what GetAnswers reads. */
module Data {
  import opened Model
  import opened Statements
  import opened Machine
  import opened Invariants
  import opened Preservation

  // ---- the key upsert loop

  function UpsertAll(keys: seq<Key>, org: nat, newKeys: seq<NewKey>): seq<Key> {
    if newKeys == [] then keys
    else
      var n := |newKeys| - 1;
      UpsertKey(UpsertAll(keys, org, newKeys[..n]), org, newKeys[n])
  }

  /** The last entry for a name that the table accepts. */
  function LastEntry(newKeys: seq<NewKey>, name: string): Option<NewKey> {
    if newKeys == [] then None
    else
      var n := |newKeys| - 1;
      if newKeys[n].name == name && Fits(newKeys[n]) then Some(newKeys[n]) else LastEntry(newKeys[..n], name)
  }

  function Refreshed(k: Key, org: nat, newKeys: seq<NewKey>): Key {
    var last := LastEntry(newKeys, k.name);
    if k.org == Some(org) && last.Some? then k.(query := last.value.query, dataType := last.value.dataType) else k
  }

  /** The loop refreshes the tenant's own keys from the last accepted entry of
      their name, appends the names that were missing, and leaves every other key
      alone. */
  lemma {:induction false} UpsertAllRows(keys: seq<Key>, org: nat, newKeys: seq<NewKey>)
    requires KeysUnique(keys)
    ensures var keys' := UpsertAll(keys, org, newKeys);
            KeysUnique(keys') && |keys| <= |keys'| &&
            (forall i :: 0 <= i < |keys| ==> keys'[i] == Refreshed(keys[i], org, newKeys)) &&
            (forall i :: |keys| <= i < |keys'| ==>
              keys'[i].org == Some(org) && keys'[i] == Refreshed(keys'[i], org, newKeys)) &&
            (forall i :: |keys| <= i < |keys'| ==> LastEntry(newKeys, keys'[i].name).Some?) &&
            (forall name :: LastEntry(newKeys, name).Some? ==> KeyRow(keys', Some(org), name) < |keys'|)
    decreases |newKeys|
  {
    hide UpsertKey, KeyRow, Fits;
    if newKeys != [] {
      var n := |newKeys| - 1;
      var before, k := UpsertAll(keys, org, newKeys[..n]), newKeys[n];
      UpsertAllRows(keys, org, newKeys[..n]);
      UpsertKeyUnique(before, org, k);
      UpsertRows(before, org, k);
    }
  }

  lemma UpsertRows(keys: seq<Key>, org: nat, k: NewKey)
    requires KeysUnique(keys)
    ensures var keys' := UpsertKey(keys, org, k);
            (forall i :: 0 <= i < |keys| ==>
              keys'[i] == if Fits(k) && keys[i].org == Some(org) && keys[i].name == k.name
                          then keys[i].(query := k.query, dataType := k.dataType) else keys[i]) &&
            (forall i :: |keys| <= i < |keys'| ==>
              Fits(k) && keys'[i] == Key(Some(org), k.name, k.query, k.dataType)) &&
            (forall o, name :: KeyRow(keys, o, name) < |keys| ==> KeyRow(keys', o, name) < |keys'|) &&
            (Fits(k) ==> KeyRow(keys', Some(org), k.name) < |keys'|)
  {
    var keys' := UpsertKey(keys, org, k);
    var row := KeyRow(keys, Some(org), k.name);
    forall i | 0 <= i < |keys| && keys[i].org == Some(org) && keys[i].name == k.name ensures i == row {
      assert i < row ==> !SameKey(keys[i], keys[row]);
      assert row < i ==> !SameKey(keys[row], keys[i]);
    }
    forall o, name | KeyRow(keys, o, name) < |keys| ensures KeyRow(keys', o, name) < |keys'| {
      var i := KeyRow(keys, o, name);
      assert keys'[i].org == o && keys'[i].name == name;
    }
    assert Fits(k) ==> keys'[row].org == Some(org) && keys'[row].name == k.name;
  }

  /** Every name of newKeys has its row, so a unique extension adds none. */
  lemma NothingAdded(once: seq<Key>, twice: seq<Key>, org: nat, newKeys: seq<NewKey>)
    requires KeysUnique(twice) && |once| <= |twice| && forall i :: 0 <= i < |once| ==> SameKey(once[i], twice[i])
    requires forall i :: |once| <= i < |twice| ==> twice[i].org == Some(org) && LastEntry(newKeys, twice[i].name).Some?
    requires forall name :: LastEntry(newKeys, name).Some? ==> KeyRow(once, Some(org), name) < |once|
    ensures |twice| == |once|
  {
    assert |once| < |twice| ==> LastEntry(newKeys, twice[|once|].name).Some?;
  }

  /** A redelivered resolve_keys result changes no key. */
  lemma UpsertAllIdempotent(keys: seq<Key>, org: nat, newKeys: seq<NewKey>)
    requires KeysUnique(keys)
    ensures UpsertAll(UpsertAll(keys, org, newKeys), org, newKeys) == UpsertAll(keys, org, newKeys)
  {
    var once := UpsertAll(keys, org, newKeys);
    var twice := UpsertAll(once, org, newKeys);
    UpsertAllRows(keys, org, newKeys);
    UpsertAllRows(once, org, newKeys);
    NothingAdded(once, twice, org, newKeys);
    forall i | 0 <= i < |once| ensures twice[i] == once[i] {
      assert once[i] == Refreshed(once[i], org, newKeys);
    }
  }

  lemma {:induction false} RunUpserts(s: State, org: nat, newKeys: seq<NewKey>)
    ensures Run(s, UpsertOps(org, newKeys)) == s.(keys := UpsertAll(s.keys, org, newKeys))
    decreases |newKeys|
  {
    if newKeys != [] {
      var n := |newKeys| - 1;
      var ops := UpsertOps(org, newKeys);
      assert ops == UpsertOps(org, newKeys[..n]) + [UpsertNewKey(org, newKeys[n])];
      RunUpserts(s, org, newKeys[..n]);
      RunAppend(s, UpsertOps(org, newKeys[..n]), [UpsertNewKey(org, newKeys[n])]);
      RunOne(Run(s, UpsertOps(org, newKeys[..n])), UpsertNewKey(org, newKeys[n]));
    }
  }

  // ---- what resolve_keys is offered

  /** The keys sent along with a resolve_keys message are exactly those that the
      tenant may see. */
  lemma {:induction false} OfferedKeys(keys: seq<Key>, org: nat, k: NewKey)
    ensures k in ListExtractionKeysByOrg(keys, org) <==>
            exists i :: 0 <= i < |keys| && (keys[i].org == None || keys[i].org == Some(org)) &&
                        k == NewKey(keys[i].name, keys[i].query, keys[i].dataType)
  {
    if keys != [] {
      var n := |keys| - 1;
      OfferedKeys(keys[..n], org, k);
      assert keys == keys[..n] + [keys[n]];
    }
  }

  // ---- name resolution

  /** A name resolves to the one key of that name that is visible to the tenant
      and not shadowed: the tenant's own key, or else the system key. */
  lemma KeyOfPreferred(keys: seq<Key>, org: nat, name: string, i: nat)
    requires KeysUnique(keys)
    ensures KeyOf(keys, org, name) == Some(i) <==> i < |keys| && keys[i].name == name && Preferred(keys, i, org)
    ensures KeyOf(keys, org, name) == Some(i) <==>
            i < |keys| && keys[i].name == name &&
            (keys[i].org == Some(org) ||
             (keys[i].org == None &&
              forall j :: 0 <= j < |keys| ==> keys[j].org != Some(org) || keys[j].name != name))
  {
    var own, shared := KeyRow(keys, Some(org), name), KeyRow(keys, None, name);
    if i < |keys| && keys[i].name == name && Preferred(keys, i, org) {
      var j := if own < |keys| then own else shared;
      assert SameKey(keys[i], keys[j]) && SameKey(keys[j], keys[i]);
      assert i == j;
    }
  }

  // ---- extract results

  function GetAnswers(s: State, req: Request): seq<Answer> {
    if req.schema == [] then []
    else ListExtractedDataForKeys(s, req.document, req.org, set e | e in req.schema :: e.name, |s.keys|)
  }

  lemma {:induction false} ListedAnswers(s: State, document: nat, org: nat, names: set<string>, n: nat, a: Answer)
    requires n <= |s.keys|
    ensures a in ListExtractedDataForKeys(s, document, org, names, n) <==>
            exists i :: 0 <= i < n && Cell(org, document, i) in s.extracted && s.keys[i].name in names &&
                        a == Answer(s.keys[i].name, s.keys[i].dataType, s.extracted[Cell(org, document, i)])
  {
    if n > 0 {
      ListedAnswers(s, document, org, names, n - 1, a);
    }
  }

  predicate Named(schema: seq<SchemaEntry>, name: string) {
    exists k :: 0 <= k < |schema| && schema[k].name == name
  }

  /** In any status of the request: an answer is given exactly when the cell of a
      key that the schema names is stored, with that key's type and that value, and
      once for each such key. */
  lemma AnswersAre(s: State, req: Request)
    ensures forall a :: a in GetAnswers(s, req) <==>
              exists i :: 0 <= i < |s.keys| && Cell(req.org, req.document, i) in s.extracted &&
                          Named(req.schema, s.keys[i].name) &&
                          a == Answer(s.keys[i].name, s.keys[i].dataType,
                                      s.extracted[Cell(req.org, req.document, i)])
    ensures |GetAnswers(s, req)| == |set i: nat | i < |s.keys| && Cell(req.org, req.document, i) in s.extracted &&
                                                  Named(req.schema, s.keys[i].name)|
  {
    hide ListExtractedDataForKeys;
    var names := set e | e in req.schema :: e.name;
    forall name ensures name in names <==> Named(req.schema, name) {
      NamedIn(req.schema, name);
    }
    OncePerKey(s, req.document, req.org, names, |s.keys|);
    assert (set i: nat | i < |s.keys| && Answerable(s, req.document, req.org, names, i)) ==
           (set i: nat | i < |s.keys| && Cell(req.org, req.document, i) in s.extracted &&
                         Named(req.schema, s.keys[i].name));
    forall a ensures a in GetAnswers(s, req) <==>
      exists i :: 0 <= i < |s.keys| && Cell(req.org, req.document, i) in s.extracted &&
                  Named(req.schema, s.keys[i].name) &&
                  a == Answer(s.keys[i].name, s.keys[i].dataType, s.extracted[Cell(req.org, req.document, i)])
    {
      ListedAnswers(s, req.document, req.org, names, |s.keys|, a);
    }
  }

  predicate Answerable(s: State, document: nat, org: nat, names: set<string>, i: nat) {
    i < |s.keys| && Cell(org, document, i) in s.extracted && s.keys[i].name in names
  }

  lemma {:induction false} OncePerKey(s: State, document: nat, org: nat, names: set<string>, n: nat)
    requires n <= |s.keys|
    ensures |ListExtractedDataForKeys(s, document, org, names, n)| ==
            |set i: nat | i < n && Answerable(s, document, org, names, i)|
  {
    if n > 0 {
      OncePerKey(s, document, org, names, n - 1);
      OneMoreKey(s, document, org, names, n - 1);
    }
  }

  lemma OneMoreKey(s: State, document: nat, org: nat, names: set<string>, n: nat)
    ensures |set i: nat | i < n + 1 && Answerable(s, document, org, names, i)| ==
            |set i: nat | i < n && Answerable(s, document, org, names, i)| +
            if Answerable(s, document, org, names, n) then 1 else 0
  {
    hide Answerable;
    var before := set i: nat | i < n && Answerable(s, document, org, names, i);
    var after := set i: nat | i < n + 1 && Answerable(s, document, org, names, i);
    assert after == before + if Answerable(s, document, org, names, n) then {n} else {};
  }

  lemma NamedIn(schema: seq<SchemaEntry>, name: string)
    ensures name in (set e | e in schema :: e.name) <==> Named(schema, name)
  {
    if Named(schema, name) {
      var k :| 0 <= k < |schema| && schema[k].name == name;
      assert schema[k] in schema;
    }
  }

  /** The spec of persistExtractedData: for each non-null value whose name
      resolves, set the cell of its key; leave all other cells alone. */
  lemma SavedCells(s: State, req: Request, data: Extracted, c: Cell)
    requires KeysUnique(s.keys)
    ensures var saved := SaveValues(s.extracted, req.org, req.document, Writes(s.keys, req.org, data));
            if c.org == req.org && c.document == req.document && c.key < |s.keys| && s.keys[c.key].name in data &&
               data[s.keys[c.key].name].Some? && KeyOf(s.keys, req.org, s.keys[c.key].name) == Some(c.key)
            then c in saved && saved[c] == data[s.keys[c.key].name].value
            else (c in saved <==> c in s.extracted) && (c in saved ==> saved[c] == s.extracted[c])
  {
    var values := Writes(s.keys, req.org, data);
    assert c.key in values ==>
      Cell(req.org, req.document, c.key) in (set k | k in values :: Cell(req.org, req.document, k));
  }

  /** The state after a successful extract result. */
  function Persisted(s: State, r: nat, data: Extracted): State
    requires r < |s.requests|
  {
    var req := s.requests[r];
    s.(extracted := SaveValues(s.extracted, req.org, req.document, Writes(s.keys, req.org, data)),
       requests := s.requests[r := req.(status := RequestCompleted, error := None)])
  }

  lemma NothingToSave(extracted: map<Cell, string>, org: nat, document: nat)
    ensures SaveValues(extracted, org, document, map[]) == extracted
  {
  }

  lemma RunExtractKeys(s: State, req: Request, data: Extracted)
    ensures Run(s, [ExtractKeys(req, data)]) ==
            s.(extracted := SaveValues(s.extracted, req.org, req.document, Writes(s.keys, req.org, data)))
  {
    hide Run, Writes, SaveValues;
    var values := Writes(s.keys, req.org, data);
    RunOne(s, ExtractKeys(req, data));
    RunNone(s);
    if values == map[] {
      NothingToSave(s.extracted, req.org, req.document);
    } else {
      RunLast(s, SaveData(req.org, req.document, values));
    }
  }

  lemma NoData(keys: seq<Key>, org: nat)
    ensures Writes(keys, org, map[]) == map[]
  {
  }

  lemma RunExtract(s: State, r: nat, data: Extracted)
    requires r < |s.requests|
    ensures Run(s, [ExtractLoad(r, data)]) == Persisted(s, r, data)
  {
    hide Run, After, Next, Writes, SaveValues;
    var req, done := s.requests[r], SetRequestStatus(r, RequestCompleted, None);
    RunOne(s, ExtractLoad(r, data));
    ExtractLoadStep(s, r, data);
    if data == map[] {
      NoData(s.keys, req.org);
      NothingToSave(s.extracted, req.org, req.document);
      SetStatusStep(s, r, RequestCompleted, None);
    } else {
      RunAppend(s, [ExtractKeys(req, data)], [done]);
      RunExtractKeys(s, req, data);
      SetStatusStep(Run(s, [ExtractKeys(req, data)]), r, RequestCompleted, None);
    }
  }

  lemma KeyOfNames(keys: seq<Key>, org: nat, name: string)
    ensures KeyOf(keys, org, name).Some? ==>
              KeyOf(keys, org, name).value < |keys| && keys[KeyOf(keys, org, name).value].name == name
  {
  }

  /** What an extract callback writes is what GetAnswers then returns: every
      non-null value whose name is in the schema and resolves to a key. */
  lemma WriteReadAgreement(s: State, r: nat, data: Extracted, name: string)
    requires KeysUnique(s.keys) && r < |s.requests|
    requires name in data && data[name].Some? && KeyOf(s.keys, s.requests[r].org, name).Some?
    requires exists e :: e in s.requests[r].schema && e.name == name
    ensures var s' := Run(s, [ExtractLoad(r, data)]);
            r < |s'.requests| && s'.requests[r].status == RequestCompleted &&
            Answer(name, s.keys[KeyOf(s.keys, s.requests[r].org, name).value].dataType, data[name].value)
              in GetAnswers(s', s'.requests[r])
  {
    hide Run, KeyOf, Writes, SaveValues, ListExtractedDataForKeys, KeysUnique;
    RunExtract(s, r, data);
    KeyOfNames(s.keys, s.requests[r].org, name);
    var req, k, s' := s.requests[r], KeyOf(s.keys, s.requests[r].org, name).value, Persisted(s, r, data);
    SavedCells(s, req, data, Cell(req.org, req.document, k));
    ListedAnswers(s', req.document, req.org, set e | e in req.schema :: e.name, |s'.keys|,
                  Answer(name, s.keys[k].dataType, data[name].value));
  }

  /** Every answer is a value stored for this document and tenant, under a key
      that the tenant may see and that the schema names. */
  lemma AnswersAreOwn(s: State, r: nat, a: Answer)
    requires Inv(s) && r < |s.requests| && a in GetAnswers(s, s.requests[r])
    ensures exists i :: 0 <= i < |s.keys| && Cell(s.requests[r].org, s.requests[r].document, i) in s.extracted &&
              s.extracted[Cell(s.requests[r].org, s.requests[r].document, i)] == a.value &&
              s.keys[i].name == a.name && s.keys[i].dataType == a.dataType && Visible(s.keys[i], s.requests[r].org)
    ensures exists e :: e in s.requests[r].schema && e.name == a.name
  {
    var req := s.requests[r];
    ListedAnswers(s, req.document, req.org, set e | e in req.schema :: e.name, |s.keys|, a);
    var i :| 0 <= i < |s.keys| && Cell(req.org, req.document, i) in s.extracted &&
      s.keys[i].name in (set e | e in req.schema :: e.name) &&
             a == Answer(s.keys[i].name, s.keys[i].dataType, s.extracted[Cell(req.org, req.document, i)]);
    assert CellOk(s, Cell(req.org, req.document, i));
  }
}
