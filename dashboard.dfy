/**
 * The control state of the evaluation dashboard page (src/pages/Project.jsx):
 * the `stats` snapshot and the `status` text, and the handlers that change
 * them. The outcome of every network call (`fetch` followed by `res.json()`)
 * is a parameter: `None` when either step throws, `Some` of the parsed body
 * otherwise. An acknowledgement that parses to `null` throws at
 * `data.status`, inside the same `try`, so it is passed as `None` too.
 *
 * The requests the page sends are recorded, in order, in a ghost trace so
 * that the order of the reset handler's two calls can be stated.
 */
module Dashboard {
  import opened Wrappers
  import opened Stats

  /** The five control buttons. */
  datatype Command = Quick | Start | Pause | Resume | Reset

  /** The endpoint each button posts to, relative to the API base. */
  function CommandPath(c: Command): (path: string)
    ensures |path| > 17 && path[..17] == "/api/evaluations/"
  {
    match c
    case Quick => "/api/evaluations/quick"
    case Start => "/api/evaluations/start"
    case Pause => "/api/evaluations/pause"
    case Resume => "/api/evaluations/resume"
    case Reset => "/api/evaluations/reset"
  }

  /** The buttons post to five different endpoints. */
  lemma CommandPathInjective(c: Command, d: Command)
    ensures CommandPath(c) == CommandPath(d) <==> c == d
  {
    if c != d {
      assert CommandPath(c)[17] != CommandPath(d)[17] || |CommandPath(c)| != |CommandPath(d)|;
    }
  }

  /** A request the page sends: a POST to a command endpoint, or the GET of /api/analysis. */
  datatype Request = PostTo(path: string) | GetAnalysis

  /** The parsed acknowledgement of a command; its `status` field may be missing (a non-string status is not modelled). */
  datatype Ack = Ack(status: Option<string>)

  /** The status text shown when a command's request or its parsing fails. */
  const Unreachable: string := "Error: backend unreachable."

  /** The status after a command: the acknowledgement's `status` field, or the sentinel on failure. */
  function StatusAfter(ack: Option<Ack>): Option<string>
  {
    if ack.Some? then ack.value.status else Some(Unreachable)
  }

  class ProjectPage {
    /** The last snapshot fetched successfully. */
    var stats: seq<DomainStat>
    /** The status line under the buttons; `None` is JavaScript's `undefined`. */
    var status: Option<string>
    /** The requests sent so far, oldest first. */
    ghost var requests: seq<Request>

    /** The page's initial state: no snapshot, an empty status, nothing sent. */
    constructor ()
      ensures stats == [] && status == Some("") && requests == []
    {
      stats := [];
      status := Some("");
      requests := [];
    }

    /**
     * `fetchStats`: a successful fetch replaces the snapshot wholesale; a
     * failed one leaves it as it was. The status is never touched.
     */
    method FetchStats(fetched: Option<seq<DomainStat>>)
      modifies this
      ensures requests == old(requests) + [GetAnalysis]
      ensures stats == if fetched.Some? then fetched.value else old(stats)
      ensures status == old(status)
    {
      requests := requests + [GetAnalysis];
      if fetched.Some? {
        stats := fetched.value;
      }
    }

    /**
     * `POST`: sets the status from the acknowledgement, or to the sentinel
     * when the request fails; returns the acknowledgement (undefined on
     * failure). Nothing is thrown and the snapshot is not touched.
     */
    method Post(path: string, ack: Option<Ack>) returns (r: Option<Ack>)
      modifies this
      ensures requests == old(requests) + [PostTo(path)]
      ensures status == StatusAfter(ack)
      ensures r == ack
      ensures stats == old(stats)
    {
      requests := requests + [PostTo(path)];
      if ack.Some? {
        status := ack.value.status;
      } else {
        status := Some(Unreachable);
      }
      r := ack;
    }

    /**
     * `onReset`: the reset command first, then a refetch, whatever the
     * command's outcome. After a successful refetch the snapshot is the
     * refetched one.
     */
    method OnReset(ack: Option<Ack>, refetched: Option<seq<DomainStat>>)
      modifies this
      ensures requests == old(requests) + [PostTo(CommandPath(Reset)), GetAnalysis]
      ensures status == StatusAfter(ack)
      ensures stats == if refetched.Some? then refetched.value else old(stats)
    {
      var _ := Post(CommandPath(Reset), ack);
      FetchStats(refetched);
    }

    /**
     * A click on one of the five buttons: Quick, Start, Pause and Resume only
     * post their command (the refetch outcome is then unused); Reset also
     * refetches.
     */
    method OnCommand(c: Command, ack: Option<Ack>, refetched: Option<seq<DomainStat>>)
      modifies this
      ensures status == StatusAfter(ack)
      ensures c != Reset ==> requests == old(requests) + [PostTo(CommandPath(c))] && stats == old(stats)
      ensures c == Reset ==> requests == old(requests) + [PostTo(CommandPath(Reset)), GetAnalysis]
      ensures c == Reset ==> stats == if refetched.Some? then refetched.value else old(stats)
    {
      if c == Reset {
        OnReset(ack, refetched);
      } else {
        var _ := Post(CommandPath(c), ack);
      }
    }
  }

  /** Mounting the page: the initial state, then the fetch of the mount effect. */
  method Mount(fetched: Option<seq<DomainStat>>) returns (page: ProjectPage)
    ensures fresh(page)
    ensures page.stats == (if fetched.Some? then fetched.value else [])
    ensures page.status == Some("") && page.requests == [GetAnalysis]
  {
    page := new ProjectPage();
    page.FetchStats(fetched);
  }

  /**
   * Two resets in a row with successful refetches leave the snapshot of the
   * second refetch, and the requests alternate reset and refetch.
   */
  method ResetTwice(page: ProjectPage, a1: Option<Ack>, s1: seq<DomainStat>, a2: Option<Ack>, s2: seq<DomainStat>)
    modifies page
    ensures page.stats == s2 && page.status == StatusAfter(a2)
    ensures page.requests == old(page.requests) +
      [PostTo(CommandPath(Reset)), GetAnalysis, PostTo(CommandPath(Reset)), GetAnalysis]
  {
    page.OnReset(a1, Some(s1));
    page.OnReset(a2, Some(s2));
  }
}
