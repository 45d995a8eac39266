/** The audited physical delete of one raw message, as a function of the tables. */
module HardDelete {
  import opened Diary
  import opened Models
  import opened Tables
  import opened Traces

  function ChunksFrom(d: Diary, sourceId: Id): set<Id> {
    set id | id in d.chunks.rows && d.chunks.rows[id].sourceId == sourceId
  }

  function NotesFrom(d: Diary, sourceId: Id): set<Id> {
    set id | id in d.notes.rows && d.notes.rows[id].sourceId == sourceId
  }

  function RecordsFrom(d: Diary, sourceId: Id): set<EmbeddingKey> {
    set k | k in d.embeddings && d.embeddings[k].sourceId == sourceId
  }

  function HitsOn(t: Traces, chunkIds: set<Id>): set<Id> {
    set h | h in t.hits && t.hits[h].chunkId in chunkIds
  }

  /** Everything derived from the source goes, and nothing else. */
  function Erased(d: Diary, sourceId: Id): Diary
    requires sourceId in d.sources.rows
  {
    Diary(Without(d.sources, {sourceId}),
          d.idempotency - {d.sources.rows[sourceId].Key()},
          Without(d.notes, NotesFrom(d, sourceId)),
          Without(d.chunks, ChunksFrom(d, sourceId)),
          d.embeddings - RecordsFrom(d, sourceId),
          d.deadLetters)
  }

  function ErasedTraces(d: Diary, t: Traces, sourceId: Id): Traces {
    t.(hits := t.hits - HitsOn(t, ChunksFrom(d, sourceId)))
  }

  function Tally(d: Diary, t: Traces, sourceId: Id): HardDeleteOutcome {
    HardDeleteOutcome(1, |NotesFrom(d, sourceId)|, |ChunksFrom(d, sourceId)|, |RecordsFrom(d, sourceId)|,
                      |HitsOn(t, ChunksFrom(d, sourceId))|)
  }
}
