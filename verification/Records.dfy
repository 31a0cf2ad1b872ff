/** The entities that the daemon passes around and stores. */
module Records {
  import opened Basics
  import opened Ledger

  /** `folded` is the name with its case folded away, as `str.casefold` gives it. */
  datatype Game = Game(appId: Option<string>, name: string, folded: string, source: string, pids: seq<int>)

  datatype TimerState = Idle | Running | Paused | Expired

  datatype Timer = Timer(
    state: TimerState, configured: int, remaining: real, action: string, generation: Option<nat>)

  const BLANK_TIMER := Timer(Idle, 0, 0.0, "inherit", None)

  /** What a warning is about: an accounting day's allowance or one generation of the timer. */
  datatype Scope = Daily(day: int) | OfTimer(generation: nat)

  datatype Mark = Mark(scope: Scope, threshold: int)

  /** A row of the `sessions` table; `ended` is absent while the session is open. */
  datatype Session = Session(id: nat, day: int, game: Game, ended: Option<int>, duration: real)

  datatype Adjustment = Adjustment(day: int, seconds: int, granted: int)

  /** How a game is named in the heatmap. */
  datatype Who = Who(appKey: string, appId: Option<string>, name: string)

  type Pending = seq<Entry<Who>>

  type Buckets = seq<Entry<string>>

  /** The application key: the Steam id unless it is missing or zero, else the folded name. */
  function AppKey(g: Game): string {
    if g.appId.Some? && g.appId.value != "" && g.appId.value != "0"
    then "app:" + g.appId.value else "name:" + g.folded
  }

  function WhoIs(g: Game): Who { Who(AppKey(g), g.appId, g.name) }

  /** Two reports are about the same game if they agree on a non-empty id, or, when one of them
      has none, on the folded name. */
  predicate SameGame(a: Game, b: Game) {
    if a.appId.Some? && a.appId.value != "" && b.appId.Some? && b.appId.value != ""
    then a.appId == b.appId
    else a.folded == b.folded
  }

  predicate IsDigits(s: string) {
    s != "" && forall i :: 0 <= i < |s| ==> '0' <= s[i] <= '9'
  }

  predicate IsBlank(s: string) {
    forall i :: 0 <= i < |s| ==> s[i] in " \t\n\r"
  }

  predicate ValidGame(g: Game) {
    && !IsBlank(g.name) && |g.name| <= 200
    && (g.appId.Some? ==> |g.appId.value| <= 32 && IsDigits(g.appId.value))
    && forall i :: 0 <= i < |g.pids| ==> g.pids[i] > 0
  }
}
