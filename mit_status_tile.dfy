/** The MIT status tile (`src/components/MITStatusTile.tsx`): how many open
    tasks are flagged MIT, the standard retry policy unless running under
    test, and the warning and success notes. */
module MitStatusTile {
  import opened Wrappers
  import opened Seqs
  import opened Tasks
  import opened Retry

  /** `mitTasks.filter(task => task.isMIT).length` over the open tasks. */
  function ActiveMits(open: seq<Task>): nat
  {
    Count(open, (t: Task) => t.isMIT)
  }

  /** The count never exceeds the open tasks, and is zero exactly when no
      open task is flagged. */
  lemma ActiveMitsCorrect(open: seq<Task>)
    ensures ActiveMits(open) <= |open|
    ensures ActiveMits(open) == 0 <==> forall t :: t in open ==> !t.isMIT
  {
    var f := (t: Task) => t.isMIT;
    FilterMembers(open, f);
    if ActiveMits(open) > 0 {
      assert Filter(open, f)[0] in Filter(open, f);
    }
  }

  /** `NODE_ENV === 'test' || REACT_APP_DISABLE_RETRIES === 'true'`. */
  predicate IsTestEnv(nodeEnv: Option<string>, disableRetries: Option<string>)
  {
    nodeEnv == Some("test") || disableRetries == Some("true")
  }

  function TilePolicy(nodeEnv: Option<string>, disableRetries: Option<string>): (p: Policy)
    ensures p == NoRetry <==> IsTestEnv(nodeEnv, disableRetries)
    ensures p != NoRetry ==> p == Standard
  {
    if IsTestEnv(nodeEnv, disableRetries) then NoRetry else Standard
  }

  const TooManyAttempts := "Failed to load MIT data after multiple attempts"
  const FallbackError := "Failed to load MIT data"

  method NewTile(nodeEnv: Option<string>, disableRetries: Option<string>) returns (tile: Loader<nat>)
    ensures fresh(tile) && tile.policy == TilePolicy(nodeEnv, disableRetries)
    ensures tile.tooManyMessage == TooManyAttempts && tile.fallbackMessage == FallbackError
    ensures tile.data == 0 && tile.isLoading && tile.error == None && tile.retryCount == 0
  {
    tile := new Loader(TilePolicy(nodeEnv, disableRetries), TooManyAttempts, FallbackError, 0);
  }

  function CountAnswer(a: Answer<seq<Task>>): Answer<nat>
  {
    MapAnswer(a, ActiveMits)
  }

  /** In a test environment a failed first request is final: one request,
      no delay. */
  lemma TestEnvSingleRequest(nodeEnv: Option<string>, disableRetries: Option<string>)
    requires IsTestEnv(nodeEnv, disableRetries)
    ensures MaxRequests(TilePolicy(nodeEnv, disableRetries)) == 1
    ensures RetryDelay(TilePolicy(nodeEnv, disableRetries), 0).None?
  {
  }

  /** The notes under the count. */
  datatype Note = NoMitsWarning | FullSuccess | NoNote

  function MitNote(activeMits: nat): (n: Note)
    ensures n == NoMitsWarning <==> activeMits == 0
    ensures n == FullSuccess <==> activeMits >= MitCap
  {
    if activeMits == 0 then NoMitsWarning else if activeMits >= 3 then FullSuccess else NoNote
  }

  /** The warning shows exactly when no open task is flagged MIT. */
  lemma WarningIffNoFlagged(open: seq<Task>)
    ensures MitNote(ActiveMits(open)) == NoMitsWarning <==> forall t :: t in open ==> !t.isMIT
  {
    ActiveMitsCorrect(open);
  }
}
