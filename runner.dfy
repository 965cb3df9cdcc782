/** The effectful part of the user-setting migration helper: the one query a
    call sends to the migration's query runner, and the batch that sends the
    settings of a list one after another and stops at the first failure. */
module MigrationRunner {
  import opened Wrappers
  import opened MigrationHelpers

  /** How the store answers a statement, given the statements it has accepted
      so far. This stands for the database behind the runner, which the
      helper does not see; it is an assumption that the answer depends on
      nothing else. */
  type Responder = (seq<Statement>, Statement) -> Outcome<string>

  /** What the runner has seen: every statement sent to it, and the ones the
      store accepted, both in order. */
  datatype Journal = Journal(sent: seq<Statement>, log: seq<Statement>)

  /** The query runner the migration is given. */
  class Executor {
    const respond: Responder
    var sent: seq<Statement>
    var log: seq<Statement>

    constructor (respond: Responder)
      ensures this.respond == respond && sent == [] && log == []
    {
      this.respond := respond;
      sent := [];
      log := [];
    }

    function State(): Journal
      reads this
    {
      Journal(sent, log)
    }

    /** Sends one statement; on success the store has accepted it. */
    method Query(st: Statement) returns (r: Outcome<string>)
      modifies this
      ensures r == respond(old(log), st)
      ensures sent == old(sent) + [st]
      ensures log == if r.Pass? then old(log) + [st] else old(log)
    {
      r := respond(log, st);
      sent := sent + [st];
      if r.Pass? {
        log := log + [st];
      }
    }
  }

  /** The outcome of one call and the runner's journal after it. */
  datatype Effect = Effect(outcome: Outcome<Error>, journal: Journal)

  /** The side of one call that touches the runner, given what validation
      and building produced: a statement is sent only when there is one,
      exactly once, and it is logged only when the store accepts it; a store
      failure comes back as the error, unchanged. */
  function Send(respond: Responder, j: Journal, planned: Result<Statement, Error>): Effect
  {
    match planned
    case Failure(err) => Effect(Fail(err), j)
    case Success(st) =>
      match respond(j.log, st)
      case Pass => Effect(Pass, Journal(j.sent + [st], j.log + [st]))
      case Fail(cause) => Effect(Fail(QueryFailed(cause)), Journal(j.sent + [st], j.log))
  }

  /** One call of the helper, from the setting to the journal. Validation
      failure sends nothing and leaves the journal as it was. Otherwise
      exactly one statement is sent, the one built from the setting; it is
      logged only when the store accepts it, and a store failure comes back
      as the error, unchanged. */
  lemma AddUserSettingJournal(respond: Responder, j: Journal, key: string, options: AddUserSettingOptions)
    ensures var e := Send(respond, j, Plan(key, options));
      if Validate(key, options).Fail? then
        e == Effect(Fail(MissingRequiredFields(key, options.defaultValue, options.valueType)), j)
      else
        var st := Plan(key, options).value;
        && e.journal.sent == j.sent + [st]
        && (e.outcome.Pass? <==> respond(j.log, st).Pass?)
        && e.journal.log == (if e.outcome.Pass? then j.log + [st] else j.log)
        && (e.outcome.Fail? ==> e.outcome.error == QueryFailed(respond(j.log, st).error))
  {
  }

  /** Adds one setting through the runner: validate, build, send. */
  method AddUserSetting(runner: Executor, key: string, options: AddUserSettingOptions) returns (r: Outcome<Error>)
    modifies runner
    ensures Effect(r, runner.State()) == Send(runner.respond, old(runner.State()), Plan(key, options))
    ensures Validate(key, options).Fail? ==>
      r == Fail(MissingRequiredFields(key, options.defaultValue, options.valueType)) && runner.sent == old(runner.sent)
    ensures Validate(key, options).Pass? ==> runner.sent == old(runner.sent) + [Plan(key, options).value]
    ensures r.Pass? ==> runner.log == old(runner.log) + [Plan(key, options).value]
  {
    var planned := Plan(key, options);
    if planned.Failure? {
      return Fail(planned.error);
    }
    var answer := runner.Query(planned.value);
    if answer.Fail? {
      return Fail(QueryFailed(answer.error));
    }
    return Pass;
  }

  /** A batch either completes, or stops at the entry with this index. */
  datatype BatchOutcome = Completed | Stopped(index: nat, error: Error)

  datatype BatchEffect = BatchEffect(outcome: BatchOutcome, journal: Journal)

  /** What validation and building make of one batch entry. The batch is
      stated for any such planner; `PlanEntry` is the helper's own. */
  type Planner = UserSettingConfig -> Result<Statement, Error>

  function PlanEntry(entry: UserSettingConfig): Result<Statement, Error>
  {
    Plan(entry.key, entry.options)
  }

  /** The same effect, seen from `n` entries earlier in the list. */
  function Shift(e: BatchEffect, n: nat): BatchEffect
  {
    match e.outcome
    case Completed => e
    case Stopped(i, err) => BatchEffect(Stopped(i + n, err), e.journal)
  }

  /** The batch, entry by entry in list order, stopping at the first failure. */
  function RunBatch(plan: Planner, respond: Responder, j: Journal, settings: seq<UserSettingConfig>): (e: BatchEffect)
    ensures e.outcome.Stopped? ==> e.outcome.index < |settings|
    decreases |settings|
  {
    if settings == [] then BatchEffect(Completed, j)
    else
      var first := Send(respond, j, plan(settings[0]));
      if first.outcome.Fail? then BatchEffect(Stopped(0, first.outcome.error), first.journal)
      else Shift(RunBatch(plan, respond, first.journal, settings[1..]), 1)
  }

  /** Adds the settings of a list, one after the other. */
  method AddUserSettings(runner: Executor, settings: seq<UserSettingConfig>) returns (r: BatchOutcome)
    modifies runner
    ensures BatchEffect(r, runner.State()) == RunBatch(PlanEntry, runner.respond, old(runner.State()), settings)
  {
    for i := 0 to |settings|
      invariant RunBatch(PlanEntry, runner.respond, old(runner.State()), settings)
             == Shift(RunBatch(PlanEntry, runner.respond, runner.State(), settings[i..]), i)
    {
      var entry := settings[i];
      assert settings[i..][0] == entry && settings[i..][1..] == settings[i + 1..];
      var outcome := AddUserSetting(runner, entry.key, entry.options);
      if outcome.Fail? {
        return Stopped(i, outcome.error);
      }
    }
    assert settings[|settings|..] == [];
    return Completed;
  }

  /** The statement an entry sends, if it passes validation. */
  function PlannedOne(planned: Result<Statement, Error>): seq<Statement>
  {
    match planned
    case Success(st) => [st]
    case Failure(_) => []
  }

  /** The statements of the valid entries of a list, in list order. */
  function Planned(plan: Planner, settings: seq<UserSettingConfig>): seq<Statement>
    decreases |settings|
  {
    if settings == [] then [] else PlannedOne(plan(settings[0])) + Planned(plan, settings[1..])
  }

  /** The statements of the first n+1 entries are those of the head followed
      by those of the next n. */
  lemma PlannedPrefix(plan: Planner, settings: seq<UserSettingConfig>, n: nat)
    requires n < |settings|
    ensures Planned(plan, settings[..n + 1]) == PlannedOne(plan(settings[0])) + Planned(plan, settings[1..][..n])
  {
    var prefix := settings[..n + 1];
    assert prefix[0] == settings[0];
    assert prefix[1..] == settings[1..][..n];
  }

  /** How many entries a batch got through before it stopped (all of them
      when it completed). */
  function Processed(e: BatchEffect, n: nat): nat
  {
    match e.outcome
    case Completed => n
    case Stopped(i, _) => i
  }

  /** Write k for the number of entries a batch got through: entries
      0..k-1 all passed validation. */
  lemma {:induction false} BatchPrefixValid(plan: Planner, respond: Responder, j: Journal, settings: seq<UserSettingConfig>)
    ensures var k := Processed(RunBatch(plan, respond, j, settings), |settings|);
      k <= |settings| && forall i | 0 <= i < k :: plan(settings[i]).Success?
    decreases |settings|
  {
    if settings != [] {
      var first := Send(respond, j, plan(settings[0]));
      if first.outcome.Pass? {
        var tail := settings[1..];
        BatchPrefixValid(plan, respond, first.journal, tail);
        var k := Processed(RunBatch(plan, respond, first.journal, tail), |tail|);
        forall i | 1 <= i < k + 1
          ensures plan(settings[i]).Success?
        {
          assert settings[i] == tail[i - 1];
        }
      }
    }
  }

  /** What a batch applies: write k for the number of entries it got
      through; the log has grown by exactly the statements of entries
      0..k-1, in list order. */
  lemma {:induction false} BatchLog(plan: Planner, respond: Responder, j: Journal, settings: seq<UserSettingConfig>)
    ensures var e := RunBatch(plan, respond, j, settings);
      e.journal.log == j.log + Planned(plan, settings[..Processed(e, |settings|)])
    decreases |settings|
  {
    if settings == [] {
      assert settings[..0] == [];
    } else {
      var first := Send(respond, j, plan(settings[0]));
      if first.outcome.Fail? {
        assert settings[..0] == [];
      } else {
        var tail := settings[1..];
        var rest := RunBatch(plan, respond, first.journal, tail);
        BatchLog(plan, respond, first.journal, tail);
        PlannedPrefix(plan, settings, Processed(rest, |tail|));
      }
    }
  }

  /** What a batch sends: the statements of the entries it got through, and
      when it stopped at entry k, that of entry k as well if it passed
      validation; nothing after entry k is sent. */
  lemma {:induction false} BatchSent(plan: Planner, respond: Responder, j: Journal, settings: seq<UserSettingConfig>)
    ensures var e := RunBatch(plan, respond, j, settings);
      var k := Processed(e, |settings|);
      e.journal.sent == j.sent + Planned(plan, settings[..if e.outcome.Stopped? then k + 1 else k])
    decreases |settings|
  {
    if settings == [] {
      assert settings[..0] == [];
    } else {
      var head, tail := settings[0], settings[1..];
      var first := Send(respond, j, plan(head));
      if first.outcome.Fail? {
        PlannedPrefix(plan, settings, 0);
        assert Planned(plan, tail[..0]) == [] by { assert tail[..0] == []; }
      } else {
        var rest := RunBatch(plan, respond, first.journal, tail);
        BatchSent(plan, respond, first.journal, tail);
        var k := Processed(rest, |tail|);
        var m := if rest.outcome.Stopped? then k + 1 else k;
        PlannedPrefix(plan, settings, m);
      }
    }
  }

  /** Why a batch stopped at entry k: either entry k failed validation, with
      that error, or its statement was sent after those of entries 0..k-1 and
      the store refused it, with the store's error. */
  lemma {:induction false} BatchStopCause(plan: Planner, respond: Responder, j: Journal, settings: seq<UserSettingConfig>)
    requires RunBatch(plan, respond, j, settings).outcome.Stopped?
    ensures var e := RunBatch(plan, respond, j, settings);
      var k := e.outcome.index;
      match plan(settings[k])
      case Failure(err) => e.outcome.error == err
      case Success(st) =>
        var answer := respond(j.log + Planned(plan, settings[..k]), st);
        answer.Fail? && e.outcome.error == QueryFailed(answer.error)
    decreases |settings|
  {
    var first := Send(respond, j, plan(settings[0]));
    if first.outcome.Pass? {
      var rest := RunBatch(plan, respond, first.journal, settings[1..]);
      BatchStopCause(plan, respond, first.journal, settings[1..]);
      var k := rest.outcome.index;
      PlannedPrefix(plan, settings, k);
      assert j.log + Planned(plan, settings[..k + 1]) == first.journal.log + Planned(plan, settings[1..][..k]);
      assert settings[k + 1] == settings[1..][k];
    } else {
      assert settings[..0] == [];
      assert j.log + Planned(plan, settings[..0]) == j.log;
    }
  }

  /** A batch that stops at entry k never looks past it: any list with the
      same first k+1 entries gives the same outcome and the same journal. */
  lemma {:induction false} BatchStopsAtFirstFailure(plan: Planner, respond: Responder, j: Journal,
                                                    settings: seq<UserSettingConfig>, others: seq<UserSettingConfig>)
    requires RunBatch(plan, respond, j, settings).outcome.Stopped?
    ensures var e := RunBatch(plan, respond, j, settings);
      RunBatch(plan, respond, j, settings[..e.outcome.index + 1] + others) == e
    decreases |settings|
  {
    var k := RunBatch(plan, respond, j, settings).outcome.index;
    var longer := settings[..k + 1] + others;
    assert longer[0] == settings[0];
    var first := Send(respond, j, plan(settings[0]));
    if first.outcome.Pass? {
      BatchStopsAtFirstFailure(plan, respond, first.journal, settings[1..], others);
      assert longer[1..] == settings[1..][..k] + others;
    }
  }

  /** When a batch completes, every entry passed validation and was accepted,
      and the log has grown by all their statements in list order. */
  lemma BatchCompleted(plan: Planner, respond: Responder, j: Journal, settings: seq<UserSettingConfig>)
    requires RunBatch(plan, respond, j, settings).outcome.Completed?
    ensures forall i | 0 <= i < |settings| :: plan(settings[i]).Success?
    ensures RunBatch(plan, respond, j, settings).journal == Journal(j.sent + Planned(plan, settings), j.log + Planned(plan, settings))
  {
    BatchPrefixValid(plan, respond, j, settings);
    BatchLog(plan, respond, j, settings);
    BatchSent(plan, respond, j, settings);
    assert settings[..|settings|] == settings;
  }

  /** An empty list sends nothing. */
  lemma EmptyBatch(plan: Planner, respond: Responder, j: Journal)
    ensures RunBatch(plan, respond, j, []) == BatchEffect(Completed, j)
  {
  }

  /** Entries "a" (valid), "" (invalid) and "c" (valid), with a store that
      accepts everything: "a" is inserted, the batch stops at the second
      entry with the validation error, and "c" is never sent. */
  lemma BatchScenario(j: Journal)
    ensures var valid := AddUserSettingOptions(Some("dark"), Some(String), Undefined, None, None, None, None);
      var settings := [UserSettingConfig("a", valid), UserSettingConfig("", valid), UserSettingConfig("c", valid)];
      var e := RunBatch(PlanEntry, (log, st) => Pass, j, settings);
      && e.outcome == Stopped(1, MissingRequiredFields("", Some("dark"), Some(String)))
      && e.journal.sent == j.sent + [Plan("a", valid).value]
      && e.journal.log == j.log + [Plan("a", valid).value]
  {
  }
}
