/** The three tables of the memory store and its operations (internal/memory/store.go,
    internal/memory/cipher_aead.go). */
module MemoryStore {
  import opened VectorCodec
  import opened Wrappers

  // ----- sealed content -----

  /** Authenticated encryption with the silo as associated data. */
  datatype Sealed = Sealed(silo: string, text: string)

  function Open(silo: string, blob: Sealed): Option<string> {
    if blob.silo == silo then Some(blob.text) else None
  }

  /** What is sealed for a silo opens to its text there, and in no other silo. */
  lemma OpensInItsSiloOnly(silo: string, other: string, text: string)
    ensures Open(silo, Sealed(other, text)) == if silo == other then Some(text) else None
  {
  }

  // ----- tables -----

  datatype Row = Row(id: string, silo: string, content: Sealed)

  datatype Blob = Blob(dim: int, raw: seq<Byte>)

  datatype Tables = Tables(
    memories: map<nat, Row>,                       // by rowid
    fts: map<nat, string>,                         // indexed text by rowid
    embeddings: map<(string, string), Blob>)       // by memory id and model

  const NO_TABLES := Tables(map[], map[], map[])

  predicate Taken(t: Tables, id: string) {
    exists rowid :: rowid in t.memories && t.memories[rowid].id == id
  }

  /** PRIMARY KEY (id). */
  ghost predicate IdsUnique(t: Tables) {
    forall a, b :: a in t.memories && b in t.memories && t.memories[a].id == t.memories[b].id ==> a == b
  }

  predicate Names(t: Tables, rowid: nat, silo: string, id: string) {
    rowid in t.memories && t.memories[rowid].id == id && t.memories[rowid].silo == silo
  }

  ghost function RowOf(t: Tables, silo: string, id: string): (r: Option<nat>)
    ensures r.Some? ==> Names(t, r.value, silo, id)
    ensures r.None? ==> forall rowid :: !Names(t, rowid, silo, id)
  {
    if rowid: nat :| Names(t, rowid, silo, id) then Some(rowid) else None
  }

  function Inserted(t: Tables, rowid: nat, id: string, silo: string, content: Sealed, indexText: string): Tables {
    t.(memories := t.memories[rowid := Row(id, silo, content)], fts := t.fts[rowid := indexText])
  }

  function WithoutMemory(embeddings: map<(string, string), Blob>, id: string): map<(string, string), Blob> {
    map k | k in embeddings && k.0 != id :: embeddings[k]
  }

  function Deleted(t: Tables, rowid: nat, id: string): Tables {
    Tables(t.memories - {rowid}, t.fts - {rowid}, WithoutMemory(t.embeddings, id))
  }

  function WithEmbedding(t: Tables, id: string, model: string, vector: seq<Word>): Tables {
    t.(embeddings := t.embeddings[(id, model) := Blob(|vector|, Encoded(vector))])
  }

  // ----- searches -----

  /** The join of the index with the table, for the rows whose indexed text matches. */
  predicate KeywordHit(t: Tables, rowid: nat, silo: string, query: string -> bool, id: string) {
    rowid in t.fts && query(t.fts[rowid]) && Names(t, rowid, silo, id)
  }

  ghost predicate FoundByKeyword(t: Tables, silo: string, query: string -> bool, id: string) {
    exists rowid :: KeywordHit(t, rowid, silo, query, id)
  }

  /** The join of the embeddings with the table. */
  ghost predicate FoundByVector(t: Tables, silo: string, model: string, id: string) {
    (id, model) in t.embeddings && exists rowid :: Names(t, rowid, silo, id)
  }

  function VectorOf(t: Tables, model: string, id: string): Option<seq<Word>>
    requires (id, model) in t.embeddings
  {
    var blob := t.embeddings[(id, model)];
    Decoded(blob.raw, blob.dim)
  }

  datatype Embedding = Embedding(id: string, vector: seq<Word>)

  datatype Deletion = Gone | NoSuchMemory | DeleteFailed

  /** How the statements of one transaction go. */
  datatype Faults = Faults(begin: bool, first: bool, second: bool, third: bool, commit: bool)

  class Store {
    var memories: map<nat, Row>
    var fts: map<nat, string>
    var embeddings: map<(string, string), Blob>

    function State(): Tables
      reads this
    {
      Tables(memories, fts, embeddings)
    }

    constructor ()
      ensures State() == NO_TABLES
    {
      memories, fts, embeddings := map[], map[], map[];
    }

    method Rollback(before: Tables)
      modifies this
      ensures State() == before
    {
      memories, fts, embeddings := before.memories, before.fts, before.embeddings;
    }

    /** rowid is the one the database picks; it is not in use. */
    method Insert(id: string, silo: string, content: Sealed, indexText: string, rowid: nat, faults: Faults) returns (ok: bool)
      requires rowid !in memories
      modifies this
      ensures ok <==>
        && (forall other :: other in old(memories) ==> old(memories)[other].id != id)
        && !faults.begin && !faults.first && !faults.second && !faults.commit
      ensures State() == if ok then Inserted(old(State()), rowid, id, silo, content, indexText) else old(State())
      ensures old(IdsUnique(State())) ==> IdsUnique(State())
    {
      if faults.begin {
        return false;
      }
      var before := State();
      if faults.first || Taken(before, id) {
        return false;
      }
      memories := memories[rowid := Row(id, silo, content)];
      if faults.second {
        Rollback(before);
        return false;
      }
      fts := fts[rowid := indexText];
      if faults.commit {
        Rollback(before);
        return false;
      }
      ok := true;
    }

    method SelectRow(silo: string, id: string) returns (r: Option<nat>)
      requires IdsUnique(State())
      ensures r == RowOf(State(), silo, id)
    {
      var left := memories.Keys;
      while left != {}
        invariant left <= memories.Keys
        invariant forall rowid :: rowid in memories && rowid !in left ==> !Names(State(), rowid, silo, id)
        decreases |left|
      {
        var rowid :| rowid in left;
        if memories[rowid].id == id && memories[rowid].silo == silo {
          assert Names(State(), rowid, silo, id);
          assert RowOf(State(), silo, id).Some?;
          return Some(rowid);
        }
        left := left - {rowid};
      }
      r := None;
    }

    method Get(silo: string, id: string) returns (r: Option<Row>)
      requires IdsUnique(State())
      ensures r.Some? <==> RowOf(State(), silo, id).Some?
      ensures r.Some? ==> r.value == memories[RowOf(State(), silo, id).value]
    {
      var rowid := SelectRow(silo, id);
      r := if rowid.Some? then Some(memories[rowid.value]) else None;
    }

    method Delete(silo: string, id: string, faults: Faults) returns (r: Deletion)
      requires IdsUnique(State())
      modifies this
      ensures
        var row := RowOf(old(State()), silo, id);
        if faults.begin then r == DeleteFailed && State() == old(State())
        else if row.None? then r == NoSuchMemory && State() == old(State())
        else if faults.first || faults.second || faults.third || faults.commit then r == DeleteFailed && State() == old(State())
        else
          && r == Gone && State() == Deleted(old(State()), row.value, id)
          && (forall k :: k in embeddings <==> k in old(embeddings) && k.0 != id)
          && (forall k :: k in embeddings ==> embeddings[k] == old(embeddings)[k])
    {
      if faults.begin {
        return DeleteFailed;
      }
      var before := State();
      var rowid := SelectRow(silo, id);
      if rowid.None? {
        return NoSuchMemory;
      }
      if faults.first {
        return DeleteFailed;
      }
      fts := fts - {rowid.value};
      if faults.second {
        Rollback(before);
        return DeleteFailed;
      }
      memories := memories - {rowid.value};
      if faults.third {
        Rollback(before);
        return DeleteFailed;
      }
      embeddings := WithoutMemory(embeddings, id);
      if faults.commit {
        Rollback(before);
        return DeleteFailed;
      }
      r := Gone;
    }

    /** One statement, outside any transaction: the memory may be gone by now. */
    method PutEmbedding(id: string, model: string, vector: seq<Word>, fails: bool) returns (ok: bool)
      modifies this`embeddings
      ensures ok == !fails
      ensures State() == if ok then WithEmbedding(old(State()), id, model, vector) else old(State())
    {
      if fails {
        return false;
      }
      var raw := EncodeVector(vector);
      embeddings := embeddings[(id, model) := Blob(|vector|, raw[..])];
      ok := true;
    }

    /** None if a blob does not have its dimension. */
    method EmbeddingsBySilo(silo: string, model: string) returns (r: Option<seq<Embedding>>)
      ensures r.Some? ==> forall e :: e in r.value <==>
        FoundByVector(State(), silo, model, e.id) && VectorOf(State(), model, e.id) == Some(e.vector)
      ensures r.Some? ==> forall i, j :: 0 <= i < j < |r.value| ==> r.value[i].id != r.value[j].id
      ensures r.None? ==> exists id :: FoundByVector(State(), silo, model, id) && VectorOf(State(), model, id).None?
    {
      var out: seq<Embedding> := [];
      var left := set k | k in embeddings && k.1 == model && InSilo(silo, k.0) :: k.0;
      while left != {}
        invariant forall id :: id in left ==> FoundByVector(State(), silo, model, id)
        invariant forall e :: e in out <==>
          FoundByVector(State(), silo, model, e.id) && e.id !in left && VectorOf(State(), model, e.id) == Some(e.vector)
        invariant forall i, j :: 0 <= i < j < |out| ==> out[i].id != out[j].id
        decreases |left|
      {
        var id :| id in left;
        assert forall i :: 0 <= i < |out| ==> out[i] in out;
        var blob := embeddings[(id, model)];
        var vector := DecodeVector(blob.raw, blob.dim);
        if vector.None? {
          assert FoundByVector(State(), silo, model, id) && VectorOf(State(), model, id).None?;
          return None;
        }
        out := out + [Embedding(id, vector.value)];
        left := left - {id};
      }
      r := Some(out);
    }

    predicate InSilo(silo: string, id: string)
      reads this
    {
      exists rowid :: rowid in memories && Names(State(), rowid, silo, id)
    }
  }
}
