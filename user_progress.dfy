/** The per-user progress store (`useUserProgress`): the map from phrase to
    total repetitions fetched for the signed-in user, and the
    increment-and-upsert that keeps the database and the map in step. */
module UserProgress {
  import opened Text

  /** One `user_progress` row as the query selects it. */
  datatype ProgressRow = ProgressRow(phraseId: string, totalRepetitions: int)

  /** One upsert sent to the database: the row written and its conflict key. */
  datatype Upsert = Upsert(userId: string, phraseId: string, totalRepetitions: int, onConflict: string)

  /** The conflict target of every upsert: one row per user and phrase. */
  const ON_CONFLICT: string := "user_id,phrase_id"

  /** `progress[id] || 0`: an absent phrase reads as zero. */
  function Count(progress: map<string, int>, id: string): int
  {
    if id in progress then progress[id] else 0
  }

  /** The map the fetched rows produce: each row sets its phrase's entry in
      turn, so a later row for the same phrase overwrites an earlier one. */
  function ProgressMap(rows: seq<ProgressRow>): map<string, int>
    decreases |rows|
  {
    if rows == [] then map[]
    else
      var last := rows[|rows| - 1];
      ProgressMap(rows[..|rows| - 1])[last.phraseId := last.totalRepetitions]
  }

  /** The local update after a successful upsert: the phrase's entry becomes
      its count plus `increment`; every other entry is kept. */
  function Increment(progress: map<string, int>, id: string, increment: int): (r: map<string, int>)
    ensures id in r && r[id] == Count(progress, id) + increment
    ensures forall k :: k != id ==> (k in r <==> k in progress)
    ensures forall k :: k != id && k in progress ==> r[k] == progress[k]
  {
    progress[id := Count(progress, id) + increment]
  }

  /** The `forEach` of `fetchProgress`; rows that are absent (`data` null)
      give the empty map. */
  method BuildProgressMap(data: Option<seq<ProgressRow>>) returns (progressMap: map<string, int>)
    ensures data.None? ==> progressMap == map[]
    ensures data.Some? ==> progressMap == ProgressMap(data.value)
  {
    progressMap := map[];
    if data.None? {
      return;
    }
    var rows := data.value;
    for i := 0 to |rows|
      invariant progressMap == ProgressMap(rows[..i])
    {
      assert rows[..i + 1][..i] == rows[..i];
      progressMap := progressMap[rows[i].phraseId := rows[i].totalRepetitions];
    }
    assert rows[..|rows|] == rows;
  }

  /** A phrase has an entry exactly when some fetched row names it. */
  lemma {:induction false} ProgressMapKeys(rows: seq<ProgressRow>, id: string)
    ensures id in ProgressMap(rows) <==> exists i :: 0 <= i < |rows| && rows[i].phraseId == id
    decreases |rows|
  {
    if rows != [] {
      var front := rows[..|rows| - 1];
      ProgressMapKeys(front, id);
      if exists i :: 0 <= i < |rows| && rows[i].phraseId == id {
        var i :| 0 <= i < |rows| && rows[i].phraseId == id;
        if i < |rows| - 1 {
          assert front[i] == rows[i];
        }
      }
      if exists i :: 0 <= i < |front| && front[i].phraseId == id {
        var i :| 0 <= i < |front| && front[i].phraseId == id;
        assert rows[i] == front[i];
      }
    }
  }

  /** The last row for a phrase wins: its entry is that row's total. */
  lemma {:induction false} ProgressMapLastWins(rows: seq<ProgressRow>, i: nat)
    requires i < |rows|
    requires forall j :: i < j < |rows| ==> rows[j].phraseId != rows[i].phraseId
    ensures rows[i].phraseId in ProgressMap(rows)
    ensures ProgressMap(rows)[rows[i].phraseId] == rows[i].totalRepetitions
    decreases |rows|
  {
    if i < |rows| - 1 {
      var front := rows[..|rows| - 1];
      assert front[i] == rows[i];
      ProgressMapLastWins(front, i);
    }
  }

  /** Two successful updates of one phrase add both increments. */
  lemma IncrementTwice(progress: map<string, int>, id: string, a: int, b: int)
    ensures Increment(Increment(progress, id, a), id, b) == Increment(progress, id, a + b)
  {
  }

  /** Updates of different phrases do not interfere: they commute. */
  lemma IncrementCommutes(progress: map<string, int>, x: string, a: int, y: string, b: int)
    requires x != y
    ensures Increment(Increment(progress, x, a), y, b) == Increment(Increment(progress, y, b), x, a)
  {
  }

  /** The hook's state for one signed-in user (or none), and the calls it
      makes: the user ids it fetched for and the upserts it sent. */
  class ProgressTracker {
    var user: Option<string>            // the signed-in user's id
    var progress: map<string, int>
    var loading: bool
    var error: Option<string>
    var fetchCalls: seq<string>         // user ids the progress query filtered on
    var upserts: seq<Upsert>            // upserts sent, oldest first

    /** The first render: no progress yet, loading, no error. */
    constructor (user: Option<string>)
      ensures this.user == user && progress == map[] && loading && error == None
      ensures fetchCalls == [] && upserts == []
    {
      this.user := user;
      progress, loading, error := map[], true, None;
      fetchCalls, upserts := [], [];
    }

    /** `fetchProgress` with the query's outcome: with no user nothing
        happens; otherwise the query filters on the user, a success replaces
        the map with the rows' map, a failure keeps it and records the
        message, and loading ends either way. */
    method FetchProgress(fetched: Remote<Option<seq<ProgressRow>>>)
      modifies this
      ensures user == old(user) && upserts == old(upserts)
      ensures old(user).None? ==>
        progress == old(progress) && loading == old(loading) && error == old(error)
        && fetchCalls == old(fetchCalls)
      ensures old(user).Some? ==> fetchCalls == old(fetchCalls) + [old(user).value] && !loading
      ensures old(user).Some? && fetched.Failed? ==>
        progress == old(progress) && error == Some(fetched.message)
      ensures old(user).Some? && fetched.Ok? ==>
        error == None
        && progress == (if fetched.data.Some? then ProgressMap(fetched.data.value) else map[])
    {
      if user.None? {
        return;
      }
      loading := true;
      error := None;
      fetchCalls := fetchCalls + [user.value];
      if fetched.Failed? {
        error := Some(fetched.message);
      } else {
        var progressMap := BuildProgressMap(fetched.data);
        progress := progressMap;
      }
      loading := false;
    }

    /** The effect on a change of user: a user triggers a fetch; no user
        clears the map and ends loading. */
    method UserChanged(newUser: Option<string>, fetched: Remote<Option<seq<ProgressRow>>>)
      modifies this
      ensures user == newUser && upserts == old(upserts)
      ensures newUser.None? ==>
        progress == map[] && !loading && error == old(error) && fetchCalls == old(fetchCalls)
      ensures newUser.Some? ==> fetchCalls == old(fetchCalls) + [newUser.value] && !loading
      ensures newUser.Some? && fetched.Failed? ==>
        progress == old(progress) && error == Some(fetched.message)
      ensures newUser.Some? && fetched.Ok? ==>
        error == None
        && progress == (if fetched.data.Some? then ProgressMap(fetched.data.value) else map[])
    {
      user := newUser;
      if newUser.Some? {
        FetchProgress(fetched);
      } else {
        progress := map[];
        loading := false;
      }
    }

    /** `updateProgress` with the upsert's outcome: with no user nothing
        happens; otherwise the new count (current count plus `increment`)
        is upserted under the user-and-phrase conflict key, and only on
        success does the phrase's entry become that count. */
    method UpdateProgress(phraseId: string, upsertError: Option<string>, increment: int := 1)
      modifies this
      ensures user == old(user) && loading == old(loading) && fetchCalls == old(fetchCalls)
      ensures old(user).None? ==>
        progress == old(progress) && error == old(error) && upserts == old(upserts)
      ensures old(user).Some? ==>
        upserts == old(upserts) + [Upsert(old(user).value, phraseId,
          Count(old(progress), phraseId) + increment, ON_CONFLICT)]
      ensures old(user).Some? && upsertError.Some? ==>
        progress == old(progress) && error == upsertError
      ensures old(user).Some? && upsertError.None? ==>
        progress == Increment(old(progress), phraseId, increment) && error == old(error)
    {
      if user.None? {
        return;
      }
      var currentCount := Count(progress, phraseId);
      var newCount := currentCount + increment;
      upserts := upserts + [Upsert(user.value, phraseId, newCount, ON_CONFLICT)];
      if upsertError.Some? {
        error := Some(upsertError.value);
        return;
      }
      progress := progress[phraseId := newCount];
    }
  }
}
