/** The tools of an agent run: only the three submitting tools touch the collector,
    each through its own checks; every other tool, built in or external, reads. */
module LoopTools {
  import opened Wrappers
  import opened Ordering
  import opened AgentEvidence
  import opened AgentSubmissions
  import opened AgentCollector
  import opened LoopConversation

  datatype ToolOutcome = Ok(payload: Payload) | Bad(problem: Problem) | Ended

  /** What a call meets outside this model: whether the tool is offered, what its
      schema says of the arguments, whether the context has ended, and what a
      reading tool answers. */
  datatype Host = Host(offered: bool, schemaIssue: Option<Problem>, ended: bool, answer: ToolOutcome)

  const ACCEPTED := Payload("accepted", None)
  const BAD_ARGUMENTS := Problem("tool_failed", [Field("arguments")])
  const MAX_READ := 200

  /** What a collector holds. */
  datatype Standing = Standing(profile: Option<Profile>, matches: map<string, JobMatch>, done: bool, failed: bool)

  function StandingOf(c: Collector): Standing
    reads c
  {
    Standing(c.profile, c.matches, c.done, c.failed)
  }

  /** The call reaches its tool. */
  predicate Reaches(host: Host) { host.offered && host.schemaIssue.None? && !host.ended }

  /** Which submissions are accepted, in which standing. */
  predicate Accepts(c: Collector, was: Standing, call: ToolCall)
    reads c
  {
    && !was.done
    && (if call.name == PROFILE_SUBMIT then
          call.arguments.ProfileArgs? && was.profile.None? && ProfileOk(c.lines, c.tagCatalog, call.arguments.profile)
        else if call.name == MATCH_SUBMIT then
          && call.arguments.MatchArgs? && was.profile.Some? && call.arguments.batch != []
          && BatchOk(c.jobs, was.matches.Keys, c.lines, call.arguments.batch)
        else
          && call.name == TASK_DONE && call.arguments.StatusArgs?
          && (call.arguments.status == "FAILED"
              || (call.arguments.status == "DONE" && was.profile.Some? && was.matches.Keys == c.jobs.Keys)))
  }

  /** What an accepted submission does, and nothing more. */
  predicate Submitted(c: Collector, call: ToolCall, was: Standing)
    reads c
  {
    && Accepts(c, was, call) && !was.failed
    && (call.name == PROFILE_SUBMIT ==>
          StandingOf(c) == was.(profile := Some(Settled(c.lines, call.arguments.profile))))
    && (call.name == MATCH_SUBMIT ==>
          && c.matches.Keys == was.matches.Keys + Elements(Refs(call.arguments.batch))
          && (forall ref | ref in was.matches :: c.matches[ref] == was.matches[ref])
          && StandingOf(c) == was.(matches := c.matches))
    && (call.name == TASK_DONE ==>
          StandingOf(c) == was.(done := true, failed := call.arguments.status == "FAILED"))
  }

  method ReadSections(c: Collector, call: ToolCall) returns (r: ToolOutcome)
    ensures r.Ok? <==> call.arguments.ReadArgs? && 1 <= call.arguments.start <= call.arguments.end <= |c.lines|
                       && call.arguments.end - call.arguments.start < MAX_READ
    ensures r.Ok? ==> r.payload == Payload("", Some(c.lines[call.arguments.start-1..call.arguments.end]))
    ensures !r.Ended?
  {
    match call.arguments
    case ReadArgs(start, end) =>
      if start < 1 || end < start || end > |c.lines| || end - start > MAX_READ - 1 {
        return Bad(Problem("read_range", [Field("start_line/end_line")]));
      }
      return Ok(Payload("", Some(c.lines[start-1..end])));
    case _ => return Bad(BAD_ARGUMENTS);
  }

  function OutcomeOf(problem: Option<Problem>, payload: Payload): ToolOutcome {
    if problem.None? then Ok(payload) else Bad(problem.value)
  }

  method Submit(c: Collector, call: ToolCall) returns (r: ToolOutcome)
    requires c.Valid() && Submits(call.name)
    modifies c`profile, c`matches, c`done, c`failed
    ensures c.Valid() && !r.Ended?
    ensures r.Ok? <==> Accepts(c, old(StandingOf(c)), call)
    ensures r.Ok? ==> Submitted(c, call, old(StandingOf(c)))
    ensures !r.Ok? ==> StandingOf(c) == old(StandingOf(c))
  {
    r := Bad(BAD_ARGUMENTS);
    var problem: Option<Problem>;
    if call.name == PROFILE_SUBMIT && call.arguments.ProfileArgs? {
      problem := c.SubmitProfile(call.arguments.profile);
      r := OutcomeOf(problem, ACCEPTED);
    } else if call.name == MATCH_SUBMIT && call.arguments.MatchArgs? {
      problem := c.SubmitMatches(call.arguments.batch);
      r := OutcomeOf(problem, ACCEPTED);
    } else if call.name == TASK_DONE && call.arguments.StatusArgs? {
      problem := c.Finish(call.arguments.status);
      r := OutcomeOf(problem, ACCEPTED);
    }
  }

  /** Registry and provider together. */
  method Execute(c: Collector, call: ToolCall, host: Host) returns (r: ToolOutcome)
    requires c.Valid()
    modifies c`profile, c`matches, c`done, c`failed
    ensures c.Valid()
    ensures r.Ok? && Submits(call.name) ==> Submitted(c, call, old(StandingOf(c)))
    ensures !(r.Ok? && Submits(call.name)) ==> StandingOf(c) == old(StandingOf(c))
    ensures Reaches(host) && Submits(call.name) ==> !r.Ended? && (r.Ok? <==> Accepts(c, old(StandingOf(c)), call))
    ensures Reaches(host) && !Submits(call.name) && call.name != READ_SECTIONS ==> r == host.answer
    ensures host.offered && host.schemaIssue.None? && host.ended ==> r.Ended?
    ensures !host.offered ==> r == Bad(Problem("tool_unavailable", [Field("name")]))
    ensures host.offered && host.schemaIssue.Some? ==> r == Bad(host.schemaIssue.value)
    ensures r.Ok? && call.name == READ_SECTIONS ==>
              && call.arguments.ReadArgs? && 1 <= call.arguments.start <= call.arguments.end <= |c.lines|
              && r.payload.lines == Some(c.lines[call.arguments.start-1..call.arguments.end])
  {
    if !host.offered { return Bad(Problem("tool_unavailable", [Field("name")])); }
    if host.schemaIssue.Some? { return Bad(host.schemaIssue.value); }
    if host.ended { return Ended; }
    if Submits(call.name) {
      r := Submit(c, call);
    } else if call.name == READ_SECTIONS {
      r := ReadSections(c, call);
    } else {
      r := host.answer;
    }
  }

  /** An accepted submission is always progress. */
  lemma AcceptedIsProgress(c: Collector, call: ToolCall, was: Standing)
    requires Submits(call.name) && Submitted(c, call, was)
    ensures CollectorProgress(c) > ProgressOf(was)
  {
    if call.name == MATCH_SUBMIT {
      var batch := call.arguments.batch;
      assert MatchOk(c.jobs, was.matches.Keys, c.lines, batch, 0);
      assert Refs(batch)[0] in c.matches.Keys && Refs(batch)[0] !in was.matches.Keys;
      SubsetIsSmaller(was.matches.Keys, c.matches.Keys);
    }
  }

  function ProgressOf(s: Standing): nat {
    |s.matches| + (if s.profile.Some? then 1 else 0) + (if s.done then 1 else 0)
  }
}
