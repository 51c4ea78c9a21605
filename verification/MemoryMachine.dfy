/** Remember, Forget and Recall, interleaved statement by statement (internal/memory/capability.go,
    internal/memory/recall.go), against a plain map from silo and id to content. */
module MemoryMachine {
  import opened MemoryStore
  import opened VectorCodec
  import opened Wrappers

  type Embed = (string, string) -> seq<Word>      // model and text to vector

  /** A recall under way: the ids its searches found, and the results fetched so far. */
  datatype Recall = Recall(silo: string, hits: set<string>, results: seq<(string, string)>, failed: bool)

  /** remembered is the history: what was remembered under each id, and where. */
  datatype State = State(
    tables: Tables,
    remembered: map<string, (string, string)>,
    unembedded: set<string>,                       // ids whose Remember has not embedded yet
    recalls: map<nat, Recall>)

  datatype Event =
    | RemembersInsert(id: string, silo: string, text: string, rowid: nat)
    | RemembersEmbed(id: string, model: string)
    | Forgets(silo: string, id: string)
    | RecallsByKeyword(r: nat, silo: string, query: string -> bool, hits: set<string>)
    | RecallsByVector(r: nat, model: string, hits: set<string>)
    | RecallsFetch(r: nat, id: string)

  const START := State(NO_TABLES, map[], {}, map[])

  ghost function Step(embed: Embed, s: State, e: Event): State {
    match e
    case RemembersInsert(id, silo, text, rowid) =>
      if id in s.remembered || rowid in s.tables.memories then s
      else s.(tables := Inserted(s.tables, rowid, id, silo, Sealed(silo, text), text),
              remembered := s.remembered[id := (silo, text)], unembedded := s.unembedded + {id})
    case RemembersEmbed(id, model) =>
      if id !in s.unembedded || id !in s.remembered then s
      else s.(tables := WithEmbedding(s.tables, id, model, embed(model, s.remembered[id].1)), unembedded := s.unembedded - {id})
    case Forgets(silo, id) =>
      var row := RowOf(s.tables, silo, id);
      if row.None? then s else s.(tables := Deleted(s.tables, row.value, id))
    case RecallsByKeyword(r, silo, query, hits) =>
      if r in s.recalls || exists id :: id in hits && !FoundByKeyword(s.tables, silo, query, id) then s
      else s.(recalls := s.recalls[r := Recall(silo, hits, [], false)])
    case RecallsByVector(r, model, hits) =>
      if r !in s.recalls || exists id :: id in hits && !FoundByVector(s.tables, s.recalls[r].silo, model, id) then s
      else s.(recalls := s.recalls[r := s.recalls[r].(hits := s.recalls[r].hits + hits)])
    case RecallsFetch(r, id) =>
      if r !in s.recalls || id !in s.recalls[r].hits then s
      else s.(recalls := s.recalls[r := Fetched(s.tables, s.recalls[r], id)])
  }

  /** Get, then open; a memory deleted since the search is skipped. */
  ghost function Fetched(t: Tables, recall: Recall, id: string): Recall {
    var row := RowOf(t, recall.silo, id);
    if row.None? then recall
    else
      var text := Open(recall.silo, t.memories[row.value].content);
      if text.None? then recall.(failed := true)
      else recall.(results := recall.results + [(id, text.value)])
  }

  ghost function Play(embed: Embed, events: seq<Event>): State {
    if events == [] then START
    else Step(embed, Play(embed, events[..|events| - 1]), events[|events| - 1])
  }

  // ----- the simple map -----

  /** used holds every id ever handed out, embedded every id and model ever embedded. */
  datatype Simple = Simple(live: map<(string, string), string>, used: set<string>, embedded: set<(string, string)>)

  ghost function SimpleStep(m: Simple, e: Event, accepted: bool): Simple {
    match e
    case RemembersInsert(id, silo, text, _) =>
      if accepted then m.(live := m.live[(silo, id) := text], used := m.used + {id}) else m
    case RemembersEmbed(id, model) => if accepted then m.(embedded := m.embedded + {(id, model)}) else m
    case Forgets(silo, id) => m.(live := m.live - {(silo, id)})
    case _ => m
  }

  /** An insert goes through with a fresh id, and a row the database can pick; a Remember embeds
      once, after its insert. */
  predicate Accepted(s: State, e: Event) {
    || (e.RemembersInsert? && e.id !in s.remembered && e.rowid !in s.tables.memories)
    || (e.RemembersEmbed? && e.id in s.unembedded && e.id in s.remembered)
  }

  ghost function SimplePlay(embed: Embed, events: seq<Event>): Simple {
    if events == [] then Simple(map[], {}, {})
    else
      var s := Play(embed, events[..|events| - 1]);
      var e := events[|events| - 1];
      SimpleStep(SimplePlay(embed, events[..|events| - 1]), e, Accepted(s, e))
  }

  // ----- the invariant -----

  /** A row holds what was remembered under its id, sealed for its silo and indexed. */
  ghost predicate RowOk(s: State, rowid: nat) {
    && rowid in s.tables.memories
    && var row := s.tables.memories[rowid];
    && row.id in s.remembered
    && s.remembered[row.id].0 == row.silo
    && row.content == Sealed(row.silo, s.remembered[row.id].1)
    && rowid in s.tables.fts && s.tables.fts[rowid] == s.remembered[row.id].1
  }

  ghost predicate TablesOk(s: State) {
    && s.tables.fts.Keys == s.tables.memories.Keys
    && (forall rowid :: rowid in s.tables.memories ==> RowOk(s, rowid))
    && IdsUnique(s.tables)
  }

  ghost predicate EmbeddingsOk(embed: Embed, s: State) {
    forall k :: k in s.tables.embeddings ==>
      k.0 in s.remembered && BlobOf(s.tables.embeddings[k], embed(k.1, s.remembered[k.0].1))
  }

  predicate BlobOf(blob: Blob, vector: seq<Word>) {
    blob == Blob(|vector|, Encoded(vector))
  }

  ghost predicate RecallOk(s: State, recall: Recall) {
    && !recall.failed
    && (forall id :: id in recall.hits ==> id in s.remembered && s.remembered[id].0 == recall.silo)
    && (forall hit :: hit in recall.results ==> hit.0 in recall.hits && hit.0 in s.remembered && s.remembered[hit.0] == (recall.silo, hit.1))
  }

  ghost predicate Inv(embed: Embed, s: State) {
    && TablesOk(s) && EmbeddingsOk(embed, s)
    && (forall r :: r in s.recalls ==> RecallOk(s, s.recalls[r]))
  }

  lemma {:induction false} InsertKeeps(embed: Embed, s: State, e: Event)
    requires Inv(embed, s) && Accepted(s, e) && e.RemembersInsert?
    ensures Inv(embed, Step(embed, s, e))
  {
    var s' := Step(embed, s, e);
    assert forall id :: id in s.remembered ==> id in s'.remembered && s'.remembered[id] == s.remembered[id];
    forall rowid | rowid in s'.tables.memories
      ensures RowOk(s', rowid)
    {
      if rowid != e.rowid {
        assert RowOk(s, rowid);
      }
    }
    forall rowid | rowid in s.tables.memories
      ensures s.tables.memories[rowid].id != e.id
    {
      assert RowOk(s, rowid);
    }
    forall r | r in s'.recalls
      ensures RecallOk(s', s'.recalls[r])
    {
      assert RecallOk(s, s.recalls[r]);
    }
  }

  lemma ForgetKeeps(embed: Embed, s: State, silo: string, id: string)
    requires Inv(embed, s)
    ensures Inv(embed, Step(embed, s, Forgets(silo, id)))
  {
    var s' := Step(embed, s, Forgets(silo, id));
    forall rowid | rowid in s'.tables.memories
      ensures RowOk(s', rowid)
    {
      assert RowOk(s, rowid);
    }
    forall r | r in s'.recalls
      ensures RecallOk(s', s'.recalls[r])
    {
      assert RecallOk(s, s.recalls[r]);
    }
  }

  lemma EmbedKeeps(embed: Embed, s: State, id: string, model: string)
    requires Inv(embed, s)
    ensures Inv(embed, Step(embed, s, RemembersEmbed(id, model)))
  {
    var s' := Step(embed, s, RemembersEmbed(id, model));
    forall rowid | rowid in s'.tables.memories
      ensures RowOk(s', rowid)
    {
      assert RowOk(s, rowid);
    }
    forall r | r in s'.recalls
      ensures RecallOk(s', s'.recalls[r])
    {
      assert RecallOk(s, s.recalls[r]);
    }
  }

  /** Whatever a search shows was remembered in the silo that was searched. */
  lemma NamedWasRemembered(s: State, rowid: nat, silo: string, id: string)
    requires TablesOk(s) && Names(s.tables, rowid, silo, id)
    ensures id in s.remembered && s.remembered[id].0 == silo
  {
    assert RowOk(s, rowid);
  }

  lemma RecallStepKeeps(embed: Embed, s: State, e: Event)
    requires Inv(embed, s) && (e.RecallsByKeyword? || e.RecallsByVector? || e.RecallsFetch?)
    ensures Inv(embed, Step(embed, s, e))
  {
    var s' := Step(embed, s, e);
    if s' != s {
      assert s'.tables == s.tables && s'.remembered == s.remembered;
      forall rowid | rowid in s'.tables.memories
        ensures RowOk(s', rowid)
      {
        assert RowOk(s, rowid);
      }
      RecallChanged(embed, s, e);
      forall r | r in s'.recalls
        ensures RecallOk(s', s'.recalls[r])
      {
        if r != e.r {
          assert RecallOk(s, s.recalls[r]);
        }
      }
    }
  }

  lemma RecallChanged(embed: Embed, s: State, e: Event)
    requires Inv(embed, s) && (e.RecallsByKeyword? || e.RecallsByVector? || e.RecallsFetch?)
    requires Step(embed, s, e) != s
    ensures e.r in Step(embed, s, e).recalls && RecallOk(s, Step(embed, s, e).recalls[e.r])
  {
    var s' := Step(embed, s, e);
    match e
    case RecallsByKeyword(r, silo, query, hits) =>
      forall id | id in hits
        ensures id in s.remembered && s.remembered[id].0 == silo
      {
        var rowid :| KeywordHit(s.tables, rowid, silo, query, id);
        NamedWasRemembered(s, rowid, silo, id);
      }
    case RecallsByVector(r, model, hits) =>
      var silo := s.recalls[r].silo;
      assert RecallOk(s, s.recalls[r]);
      forall id | id in hits
        ensures id in s.remembered && s.remembered[id].0 == silo
      {
        assert FoundByVector(s.tables, silo, model, id);
        var rowid :| Names(s.tables, rowid, silo, id);
        NamedWasRemembered(s, rowid, silo, id);
      }
    case RecallsFetch(r, id) =>
      assert RecallOk(s, s.recalls[r]);
      var row := RowOf(s.tables, s.recalls[r].silo, id);
      if row.Some? {
        assert RowOk(s, row.value);
      }
  }

  lemma {:induction false} StepKeeps(embed: Embed, s: State, e: Event)
    requires Inv(embed, s)
    ensures Inv(embed, Step(embed, s, e))
  {
    match e
    case RemembersInsert(_, _, _, _) =>
      if Accepted(s, e) {
        InsertKeeps(embed, s, e);
      }
    case RemembersEmbed(id, model) => EmbedKeeps(embed, s, id, model);
    case Forgets(silo, id) => ForgetKeeps(embed, s, silo, id);
    case _ => RecallStepKeeps(embed, s, e);
  }

  lemma {:induction false} PlayKeeps(embed: Embed, events: seq<Event>)
    ensures Inv(embed, Play(embed, events))
  {
    if events != [] {
      PlayKeeps(embed, events[..|events| - 1]);
      StepKeeps(embed, Play(embed, events[..|events| - 1]), events[|events| - 1]);
    }
  }

  // ----- the store refines the map -----

  /** The rows are the map's entries, and its used ids are the history's. */
  ghost predicate Represents(s: State, m: Simple) {
    RowsAreEntries(s.tables, m) && EntriesHaveRows(s.tables, m) && m.used == s.remembered.Keys
  }

  ghost predicate RowsAreEntries(t: Tables, m: Simple) {
    forall rowid :: rowid in t.memories ==> EntryOf(t.memories[rowid], m)
  }

  ghost predicate EntriesHaveRows(t: Tables, m: Simple) {
    forall silo, id :: (silo, id) in m.live ==> HasRow(t, silo, id)
  }

  ghost predicate HasRow(t: Tables, silo: string, id: string) {
    exists rowid :: Names(t, rowid, silo, id)
  }

  predicate EntryOf(row: Row, m: Simple) {
    (row.silo, row.id) in m.live && Open(row.silo, row.content) == Some(m.live[(row.silo, row.id)])
  }

  lemma HasRowKept(t: Tables, t': Tables, silo: string, id: string)
    requires HasRow(t, silo, id)
    requires forall rowid :: Names(t, rowid, silo, id) ==> Names(t', rowid, silo, id)
    ensures HasRow(t', silo, id)
  {
    var rowid :| Names(t, rowid, silo, id);
    assert Names(t', rowid, silo, id);
  }

  lemma InsertRefines(embed: Embed, s: State, m: Simple, e: Event)
    requires TablesOk(s) && Represents(s, m) && Accepted(s, e) && e.RemembersInsert?
    ensures Represents(Step(embed, s, e), SimpleStep(m, e, true))
  {
    var t', m' := Step(embed, s, e).tables, SimpleStep(m, e, true);
    forall rowid | rowid in t'.memories
      ensures EntryOf(t'.memories[rowid], m')
    {
      if rowid != e.rowid {
        assert RowOk(s, rowid) && EntryOf(s.tables.memories[rowid], m);
      }
    }
    forall silo, id | (silo, id) in m'.live
      ensures HasRow(t', silo, id)
    {
      if (silo, id) == (e.silo, e.id) {
        assert Names(t', e.rowid, silo, id);
      } else {
        HasRowKept(s.tables, t', silo, id);
      }
    }
  }

  lemma ForgetRefines(embed: Embed, s: State, m: Simple, silo: string, id: string)
    requires TablesOk(s) && Represents(s, m)
    ensures Represents(Step(embed, s, Forgets(silo, id)), SimpleStep(m, Forgets(silo, id), false))
  {
    var t', m' := Step(embed, s, Forgets(silo, id)).tables, SimpleStep(m, Forgets(silo, id), false);
    ForgottenRow(embed, s, silo, id);
    forall rowid | rowid in t'.memories
      ensures EntryOf(t'.memories[rowid], m')
    {
      assert EntryOf(s.tables.memories[rowid], m) && !Names(t', rowid, silo, id);
    }
    forall other, k | (other, k) in m'.live
      ensures HasRow(t', other, k)
    {
      HasRowKept(s.tables, t', other, k);
    }
  }

  /** Deleting takes away the one row with this silo and id. */
  lemma ForgottenRow(embed: Embed, s: State, silo: string, id: string)
    requires TablesOk(s)
    ensures
      var t' := Step(embed, s, Forgets(silo, id)).tables;
      forall rowid: nat ::
        (rowid in t'.memories <==> rowid in s.tables.memories && !Names(s.tables, rowid, silo, id)) &&
        (rowid in t'.memories ==> t'.memories[rowid] == s.tables.memories[rowid])
  {
    var row := RowOf(s.tables, silo, id);
    forall rowid: nat | Names(s.tables, rowid, silo, id)
      ensures row == Some(rowid)
    {
      assert row.Some? && Names(s.tables, row.value, silo, id);
    }
  }

  lemma {:induction false} StoreRefinesMap(embed: Embed, events: seq<Event>)
    ensures Represents(Play(embed, events), SimplePlay(embed, events))
  {
    if events != [] {
      var s, m, e := Play(embed, events[..|events| - 1]), SimplePlay(embed, events[..|events| - 1]), events[|events| - 1];
      StoreRefinesMap(embed, events[..|events| - 1]);
      PlayKeeps(embed, events[..|events| - 1]);
      if Accepted(s, e) && e.RemembersInsert? {
        InsertRefines(embed, s, m, e);
      } else if e.Forgets? {
        ForgetRefines(embed, s, m, e.silo, e.id);
      } else {
        QuietRefines(embed, s, m, e);
      }
    }
  }

  lemma QuietRefines(embed: Embed, s: State, m: Simple, e: Event)
    requires Represents(s, m) && !(Accepted(s, e) && e.RemembersInsert?) && !e.Forgets?
    ensures Represents(Step(embed, s, e), SimpleStep(m, e, Accepted(s, e)))
  {
    var s' := Step(embed, s, e);
    assert s'.tables.memories == s.tables.memories && s'.remembered == s.remembered;
    forall silo, id | (silo, id) in m.live
      ensures HasRow(s'.tables, silo, id)
    {
      HasRowKept(s.tables, s'.tables, silo, id);
    }
  }

  // ----- what callers see -----

  /** The index and the table never disagree. */
  lemma {:induction false} IndexAgreesWithTable(embed: Embed, events: seq<Event>)
    ensures Play(embed, events).tables.fts.Keys == Play(embed, events).tables.memories.Keys
    ensures IdsUnique(Play(embed, events).tables)
  {
    PlayKeeps(embed, events);
  }

  /** A keyword search over a silo finds exactly its live memories whose content matches. */
  lemma {:induction false} KeywordSearchIsExact(embed: Embed, events: seq<Event>, silo: string, query: string -> bool, id: string)
    ensures
      var live := SimplePlay(embed, events).live;
      FoundByKeyword(Play(embed, events).tables, silo, query, id) <==> (silo, id) in live && query(live[(silo, id)])
  {
    var s, m := Play(embed, events), SimplePlay(embed, events);
    PlayKeeps(embed, events);
    StoreRefinesMap(embed, events);
    if FoundByKeyword(s.tables, silo, query, id) {
      var rowid :| KeywordHit(s.tables, rowid, silo, query, id);
      assert RowOk(s, rowid) && EntryOf(s.tables.memories[rowid], m);
    }
    if (silo, id) in m.live && query(m.live[(silo, id)]) {
      assert HasRow(s.tables, silo, id);
      var rowid :| Names(s.tables, rowid, silo, id);
      assert RowOk(s, rowid) && EntryOf(s.tables.memories[rowid], m);
      assert KeywordHit(s.tables, rowid, silo, query, id);
    }
  }

  /** A forgotten memory takes all its embeddings with it, and no other embedding changes. */
  lemma ForgetErasesItsEmbeddings(embed: Embed, s: State, silo: string, id: string)
    requires HasRow(s.tables, silo, id)
    ensures
      var before, after := s.tables.embeddings, Step(embed, s, Forgets(silo, id)).tables.embeddings;
      && (forall k :: k in after ==> k.0 != id)
      && (forall k :: k in before && k.0 != id ==> k in after && after[k] == before[k])
      && (forall k :: k in after ==> k in before)
  {
    var rowid :| Names(s.tables, rowid, silo, id);
    assert RowOf(s.tables, silo, id).Some?;
  }

  /** Nothing is stored that was not embedded, and nothing embedded is missing while its memory
      lives. */
  ghost predicate EmbeddedKept(s: State, m: Simple) {
    && (forall k :: k in s.tables.embeddings ==> k in m.embedded)
    && (forall silo, id :: (silo, id) in m.live ==> AllStored(s, m, id))
    && (forall id :: id in s.unembedded ==> id in s.remembered)
    && (forall k :: k in m.embedded ==> k.0 in s.remembered)
    && (forall silo, id :: (silo, id) in m.live ==> id in s.remembered && s.remembered[id].0 == silo)
  }

  ghost predicate AllStored(s: State, m: Simple, id: string) {
    forall model :: (id, model) in m.embedded ==> (id, model) in s.tables.embeddings
  }

  lemma ForgetKeepsEmbedded(embed: Embed, s: State, m: Simple, silo: string, id: string)
    requires Represents(s, m) && EmbeddedKept(s, m)
    ensures EmbeddedKept(Step(embed, s, Forgets(silo, id)), SimpleStep(m, Forgets(silo, id), false))
  {
    var s', m' := Step(embed, s, Forgets(silo, id)), SimpleStep(m, Forgets(silo, id), false);
    if HasRow(s.tables, silo, id) {
      ForgetErasesItsEmbeddings(embed, s, silo, id);
      var rowid :| Names(s.tables, rowid, silo, id);
      assert EntryOf(s.tables.memories[rowid], m);
      forall other, k | (other, k) in m'.live
        ensures AllStored(s', m', k)
      {
        assert AllStored(s, m, k) && k != id;
      }
    } else {
      assert RowOf(s.tables, silo, id).None?;
      forall other, k | (other, k) in m'.live
        ensures AllStored(s', m', k)
      {
        assert AllStored(s, m, k);
      }
    }
  }

  lemma RememberKeepsEmbedded(embed: Embed, s: State, m: Simple, e: Event)
    requires EmbeddedKept(s, m) && m.used == s.remembered.Keys && !e.Forgets?
    ensures EmbeddedKept(Step(embed, s, e), SimpleStep(m, e, Accepted(s, e)))
  {
    var s', m' := Step(embed, s, e), SimpleStep(m, e, Accepted(s, e));
    forall silo, id | (silo, id) in m'.live
      ensures AllStored(s', m', id)
    {
      if (silo, id) in m.live {
        assert AllStored(s, m, id);
      }
    }
  }

  lemma {:induction false} EmbeddedIsKept(embed: Embed, events: seq<Event>)
    ensures EmbeddedKept(Play(embed, events), SimplePlay(embed, events))
  {
    if events != [] {
      var front, e := events[..|events| - 1], events[|events| - 1];
      var s, m := Play(embed, front), SimplePlay(embed, front);
      EmbeddedIsKept(embed, front);
      StoreRefinesMap(embed, front);
      if e.Forgets? {
        ForgetKeepsEmbedded(embed, s, m, e.silo, e.id);
      } else {
        RememberKeepsEmbedded(embed, s, m, e);
      }
    }
  }

  /** Orphan rows are never visible, and nothing else is hidden: an embedding is shown for a silo if
      and only if its memory lives there and its Remember has embedded it under that model; it was
      computed from the content the memory has now. */
  lemma {:induction false} VisibleEmbeddingsAreCurrent(embed: Embed, events: seq<Event>, silo: string, model: string, id: string)
    ensures
      var t, m := Play(embed, events).tables, SimplePlay(embed, events);
      && (FoundByVector(t, silo, model, id) <==> (silo, id) in m.live && (id, model) in m.embedded)
      && (FoundByVector(t, silo, model, id) ==> VectorOf(t, model, id) == Some(embed(model, m.live[(silo, id)])))
  {
    var s, m := Play(embed, events), SimplePlay(embed, events);
    PlayKeeps(embed, events);
    StoreRefinesMap(embed, events);
    EmbeddedIsKept(embed, events);
    if FoundByVector(s.tables, silo, model, id) {
      var rowid :| Names(s.tables, rowid, silo, id);
      assert RowOk(s, rowid) && EntryOf(s.tables.memories[rowid], m);
      var vector := embed(model, s.remembered[id].1);
      assert BlobOf(s.tables.embeddings[(id, model)], vector);
      VectorRoundTrip(vector, |vector|);
    }
    if (silo, id) in m.live && (id, model) in m.embedded {
      assert HasRow(s.tables, silo, id) && AllStored(s, m, id);
    }
  }

  /** However its searches and fetches interleave with everything else, a recall never fails to
      open what it fetches, and every result carries what was remembered under that id in that silo. */
  lemma {:induction false} RecallReturnsWhatWasRemembered(embed: Embed, events: seq<Event>, r: nat)
    requires r in Play(embed, events).recalls
    ensures
      var s := Play(embed, events);
      var recall := s.recalls[r];
      && !recall.failed
      && (forall hit :: hit in recall.results ==> hit.0 in s.remembered && s.remembered[hit.0] == (recall.silo, hit.1))
  {
    PlayKeeps(embed, events);
    var s := Play(embed, events);
    assert RecallOk(s, s.recalls[r]);
  }

  /** What its searches find is what a recall goes on to fetch. */
  lemma {:induction false} SearchesFillRecall(
    embed: Embed, events: seq<Event>, r: nat, silo: string, query: string -> bool, hits: set<string>, model: string, more: set<string>)
    requires r !in Play(embed, events).recalls
    requires
      var m := SimplePlay(embed, events);
      && (forall id :: id in hits ==> (silo, id) in m.live && query(m.live[(silo, id)]))
      && (forall id :: id in more ==> (silo, id) in m.live && (id, model) in m.embedded)
    ensures
      var s := Play(embed, events + [RecallsByKeyword(r, silo, query, hits)] + [RecallsByVector(r, model, more)]);
      r in s.recalls && s.recalls[r] == Recall(silo, hits + more, [], false)
  {
    var keyword := RecallsByKeyword(r, silo, query, hits);
    PlayThen(embed, events, keyword);
    PlayThen(embed, events + [keyword], RecallsByVector(r, model, more));
    forall id | id in hits
      ensures FoundByKeyword(Play(embed, events).tables, silo, query, id)
    {
      KeywordSearchIsExact(embed, events, silo, query, id);
    }
    forall id | id in more
      ensures FoundByVector(Play(embed, events).tables, silo, model, id)
    {
      VisibleEmbeddingsAreCurrent(embed, events, silo, model, id);
    }
  }

  /** And nothing it fetches was not found: a search with a hit that is not there does not happen. */
  lemma NoOtherHits(embed: Embed, s: State, r: nat, silo: string, query: string -> bool, model: string, hits: set<string>)
    ensures (exists id :: id in hits && !FoundByKeyword(s.tables, silo, query, id)) ==>
      Step(embed, s, RecallsByKeyword(r, silo, query, hits)) == s
    ensures r in s.recalls && (exists id :: id in hits && !FoundByVector(s.tables, s.recalls[r].silo, model, id)) ==>
      Step(embed, s, RecallsByVector(r, model, hits)) == s
  {
  }

  /** A Remember embeds once. */
  lemma RememberEmbedsOnce(embed: Embed, s: State, id: string, model: string, again: string)
    ensures
      var once := Step(embed, s, RemembersEmbed(id, model));
      Step(embed, once, RemembersEmbed(id, again)) == once
  {
  }

  /** Fetching a hit adds exactly its result while the memory lives, and nothing once it is gone. */
  lemma {:induction false} FetchAddsLiveHit(embed: Embed, events: seq<Event>, r: nat, id: string)
    requires r in Play(embed, events).recalls && id in Play(embed, events).recalls[r].hits
    ensures
      var before, live := Play(embed, events).recalls[r], SimplePlay(embed, events).live;
      var after := Play(embed, events + [RecallsFetch(r, id)]).recalls;
      && r in after && after[r].silo == before.silo && after[r].hits == before.hits
      && after[r].results == before.results +
           (if (before.silo, id) in live then [(id, live[(before.silo, id)])] else [])
  {
    var s, m := Play(embed, events), SimplePlay(embed, events);
    PlayThen(embed, events, RecallsFetch(r, id));
    StoreRefinesMap(embed, events);
    var silo := s.recalls[r].silo;
    var row := RowOf(s.tables, silo, id);
    assert (silo, id) in m.live ==> HasRow(s.tables, silo, id);
    assert row.Some? ==> EntryOf(s.tables.memories[row.value], m);
  }

  lemma {:induction false} PlayThen(embed: Embed, events: seq<Event>, e: Event)
    ensures Play(embed, events + [e]) == Step(embed, Play(embed, events), e)
  {
    assert (events + [e])[..|events|] == events;
  }

  /** A memory forgotten between its insert and its embedding leaves an orphan row, which no silo's
      search shows. */
  lemma ForgetBeforeEmbedLeavesOrphan(embed: Embed, id: string, silo: string, text: string, model: string)
    ensures
      var s := Play(embed, [] + [RemembersInsert(id, silo, text, 1)] + [Forgets(silo, id)] + [RemembersEmbed(id, model)]);
      && (id, model) in s.tables.embeddings
      && s.tables.memories == map[]
      && (forall other :: !FoundByVector(s.tables, other, model, id))
  {
    var e1 := [] + [RemembersInsert(id, silo, text, 1)];
    var e2 := e1 + [Forgets(silo, id)];
    PlayThen(embed, [], RemembersInsert(id, silo, text, 1));
    PlayThen(embed, e1, Forgets(silo, id));
    PlayThen(embed, e2, RemembersEmbed(id, model));
    var s1 := Play(embed, e1);
    assert Names(s1.tables, 1, silo, id);
    assert RowOf(s1.tables, silo, id) == Some(1);
    assert s1.tables.memories - {1} == map[];
  }
}
