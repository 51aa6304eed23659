/** CommonState of the drivers: the branch-detection guard, updated in place on ticks and results. */
module ClientDriver {
  import C = ClientState

  /** commonBranchRefreshInterval, in milliseconds. */
  const BRANCH_REFRESH_MS := 30_000

  datatype Status = Running | Waiting | Idle | Stopped | Pending

  datatype BranchResult = BranchResult(branch: string, background: string, foreground: string, isWorktree: bool,
                                       parent: string)

  /** The guard as values: what a tick decides from, and what a result leaves. */
  datatype Guard = Guard(startDir: string, status: Status, inFlight: bool, target: string, at: int)

  /** Whether a tick asks for the branch, were no request in flight. */
  predicate Wants(g: Guard, project: string, watched: bool, now: int) {
    var dir := if g.startDir == "" then project else g.startDir;
    watched && g.status !in {Idle, Stopped} && dir != "" && (dir != g.target || now - g.at >= BRANCH_REFRESH_MS)
  }

  class CommonState {
    var project: string
    var startDir: string
    var status: Status
    var branchInFlight: bool
    var branchTarget: string
    var branchAt: int
    var branch: BranchResult

    function View(): Guard
      reads this
    {
      Guard(startDir, status, branchInFlight, branchTarget, branchAt)
    }

    constructor (status: Status)
      ensures View() == Guard("", status, false, "", 0)
    {
      project, startDir := "", "";
      this.status := status;
      branchInFlight, branchTarget, branchAt := false, "", 0;
      branch := BranchResult("", "", "", false, "");
    }

    /** A branch job starts exactly when one is wanted and none is in flight, always for the start directory; on a
        root frame the guard moves as ClientState.ClaudeStep does. `jobs` holds the directories asked about. */
    method HandleTick(tickProject: string, watched: bool, now: int, ghost d: C.Driver) returns (jobs: seq<string>)
      requires d.Claude? && d.branch == branchInFlight
      modifies this
      ensures project == tickProject && startDir == (if old(startDir) == "" then tickProject else old(startDir))
      ensures status == old(status) && branchAt == old(branchAt) && branch == old(branch)
      ensures jobs != [] <==> Wants(old(View()), tickProject, watched, now) && !old(branchInFlight)
      ensures jobs != [] ==> jobs == [startDir] && branchTarget == startDir && branchInFlight
      ensures jobs == [] ==> branchTarget == old(branchTarget) && branchInFlight == old(branchInFlight)
      ensures C.ClaudeStep(d, true, C.TickEvent(Wants(old(View()), tickProject, watched, now)))
              == (d.(branch := branchInFlight), if jobs == [] then [] else [C.StartJob(C.Branch)])
    {
      project := tickProject;
      jobs := [];
      if startDir == "" {
        startDir := tickProject;
      }
      if status == Idle || status == Stopped {
        return;
      }
      if watched {
        var target := startDir;
        if target == "" {
          target := tickProject;
        }
        if target != "" && !branchInFlight {
          if target != branchTarget || now - branchAt >= BRANCH_REFRESH_MS {
            branchInFlight := true;
            branchTarget := target;
            jobs := [target];
          }
        }
      }
    }

    /** A result always frees the guard; only a named branch counts as fresh, so a failed detection leaves the age
        that let it be asked. */
    method ApplyBranchResult(r: BranchResult, failed: bool, now: int, ghost d: C.Driver) returns (applied: bool)
      requires d.Claude? && d.branch == branchInFlight
      modifies this`branchInFlight, this`branchAt, this`branch
      ensures applied <==> !failed && r.branch != ""
      ensures branch == (if applied then r else old(branch)) && branchAt == (if applied then now else old(branchAt))
      ensures C.ClaudeStep(d, true, C.Result(C.Branch)) == (d.(branch := branchInFlight), [])
    {
      branchInFlight := false;
      if failed || r.branch == "" {
        return false;
      }
      branch, branchAt := r, now;
      return true;
    }
  }
}
