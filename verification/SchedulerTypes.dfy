/** The values the scheduler works on: tracker issues, configuration, the tracked
    state, and the events and effects that pass between Reduce and its shell. */
module SchedulerTypes {
  import B = Backoff

  type Id = string

  datatype Option<+T> = None | Some(value: T)

  datatype Blocker = Blocker(state: string)

  datatype Issue = Issue(id: Id, identifier: string, title: string, state: string,
                         priority: Option<int>, createdAt: int, blockedBy: seq<Blocker>)

  /** byState keys are lower-case state names. */
  datatype Config = Config(maxAgents: int, byState: map<string, int>, maxBackoffMs: int,
                           stallTimeoutMs: int, active: seq<string>, terminal: seq<string>)

  datatype Totals = Totals(input: int, output: int, total: int)

  /** One absolute cumulative report of a thread. */
  datatype Usage = Usage(thread: string, input: int, output: int, total: int)

  datatype Accumulator = Accumulator(lastSeen: map<string, Usage>, totals: Totals)

  /** Times are nanoseconds; 0 is Go's zero time. */
  datatype LiveSession = LiveSession(id: string, startedAt: int)

  datatype RunAttempt = RunAttempt(
    issue: Issue, session: LiveSession, attempt: int, turns: int, startedAt: int,
    lastMessage: string, lastEvent: string, lastTimestamp: int,
    totals: Totals, totalRuntime: int, rateLimit: Option<int>)

  datatype RetryKind = Continuation | Backoff

  /** How long a retry waits: the fixed second of a continuation, or backoffDelay. */
  datatype Delay = OneSecond | AfterBackoff(attempt: int, maxMs: int)

  function Nanoseconds(d: Delay): int {
    match d
    case OneSecond => 1000 * B.MILLISECOND
    case AfterBackoff(attempt, maxMs) => B.BackoffDelay(attempt, maxMs)
  }

  /** The retry was armed at time `armedAt`; DueAtMs gives the source's DueAtMS. */
  datatype RetryEntry = RetryEntry(id: Id, identifier: string, attempt: int,
                                   kind: RetryKind, err: Option<string>, armedAt: int, delay: Delay)

  function DueAtMs(e: RetryEntry): int {
    (e.armedAt + Nanoseconds(e.delay)) / B.MILLISECOND
  }

  datatype State = State(
    running: map<Id, RunAttempt>, claimed: set<Id>, retries: map<Id, RetryEntry>,
    usage: map<Id, Accumulator>, runtime: map<Id, int>,
    totals: Totals, totalRuntime: int)

  const EMPTY_STATE := State(map[], {}, map[], map[], map[], Totals(0, 0, 0), 0)

  /** What a retry timer carries to the loop when it fires. */
  datatype FireReq = FireReq(id: Id, identifier: string, attempt: int)

  datatype Exit = Exit(id: Id, err: Option<string>, attempt: int)

  datatype Activity = Activity(id: Id, event: string, message: string, timestamp: int,
                               usage: Option<Usage>, rateLimit: Option<int>,
                               turnDuration: Option<int>, turnCompleted: bool)

  datatype Event =
    | EvTick(configValid: bool)
    | EvCandidatesFetched(issues: seq<Issue>)
    | EvTrackerRefreshed(requested: seq<Id>, issues: seq<Issue>)
    | EvRevalidated(issue: Issue, attempt: int, latest: Option<Issue>)
    | EvRetryDue(req: FireReq)
    | EvRetryResolved(req: FireReq, issues: seq<Issue>, fetchErr: Option<string>)
    | EvSpawned(issue: Issue, attempt: int, session: LiveSession)
    | EvSpawnFailed(issue: Issue, attempt: int, err: string)
    | EvWorkerExit(exit: Exit)
    | EvCodexActivity(activity: Activity)

  datatype Effect =
    | EffFetchCandidates
    | EffRefreshTracker(ids: seq<Id>)
    | EffRevalidate(issue: Issue, attempt: int)
    | EffRetryFetch(req: FireReq)
    | EffSpawn(issue: Issue, attempt: int)
    | EffKillWorker(id: Id, reason: string)
    | EffRemoveWorkspace(identifier: string)
    | EffArmRetryTimer(req: FireReq, delay: Delay)
    | EffCancelRetryTimer(id: Id)

  function LowerChar(c: char): char {
    if 'A' <= c <= 'Z' then c - 'A' + 'a' else c
  }

  function Lower(s: string): string {
    seq(|s|, i requires 0 <= i < |s| => LowerChar(s[i]))
  }
}
