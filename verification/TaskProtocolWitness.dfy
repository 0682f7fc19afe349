/** One concrete execution of the task protocol that sends a submission upstream, so its safety results speak of real calls. */
module TaskProtocolWitness {
  import opened Common
  import opened TaskRoute
  import opened RouteStore
  import opened TaskProtocol
  import opened TaskProtocolSafety

  const Someone := Caller("x", "x")
  const Tool := Capability("x", "x", "x", Zero)
  const Task := Submission(
    SUBMISSION_SCHEMA, "x", "x", "x", "x", Of("x"), Of("x"), Of("x"), "x", 1_000, 1_000, Limits(1_000, 1, 1, 1),
    NonIdempotentWrite, true, 0)
  const Ask := Request(Someone, Complete(Task), Arguments("x", 0), Tool, false)
  const Bound0 := TaskBinding(Tool, "x", Task)
  const Outside := Env("x", Some("x"), Some("x"), true, NoReply, PollFailed, false)

  function First(): Route {
    Route(SCHEMA_VERSION, "x", Someone, Some("x"), RequestDigest(Bound0), Bound0, Tool, "x", "x",
          None, None, Prepared, 0, 0, 1_000, 1_000, 0, None)
  }

  function Claim(): Route {
    First().(phase := Dispatching, owner := Some("x"), version := 1)
  }

  lemma PlainName()
    ensures ValidIdentifier("x", MAX_IDENTIFIER_BYTES) && TaskIdentifier("x") && ValidCaller(Someone)
  {
    assert Utf8Length("x") == 1 by {
      assert "x"[1..] == "";
    }
  }

  lemma RecordsAreShaped()
    ensures WellShaped(First()) && VerifyPreparedForBegin(First()).None? && WellShaped(Claim())
  {
    PlainName();
    hide ValidIdentifier, TaskIdentifier, ValidCaller;
  }

  lemma TaskParses()
    ensures Parse(Complete(Task), Arguments("x", 0), "x", NonIdempotentWrite, 0) == Ok(Task)
  {
    PlainName();
    hide TaskIdentifier;
  }

  lemma RecordIsPrepared()
    ensures PrepareWithId("x", Someone, Some("x"), RequestDigest(Bound0), Bound0, Tool, "x", 0, 1_000) == Ok(First())
  {
    RecordsAreShaped();
    hide ValidateShape;
  }

  lemma EmptyTableInserts()
    ensures SqlBegin(map[], First()) == (map["x" := First()], Ok(Inserted(First())))
    ensures SqlPurge(map[], 0, PURGE_BATCH).0 == map[]
  {
    RecordsAreShaped();
    hide ValidateShape, VerifyPreparedForBegin;
    assert SqlLookup(map[], First()).None?;
    assert Active(map[], Someone, 0) == {};
    assert SqlPurged(map[], 0, PURGE_BATCH) == {};
  }

  lemma ClaimWins()
    ensures SqlCas(map["x" := First()], Someone, "x", 0, ToDispatching("x", 0)) == (map["x" := Claim()], Ok(Some(Claim())))
  {
    RecordsAreShaped();
    hide ValidateShape;
    assert Transition(First(), ToDispatching("x", 0)) == Ok(Claim());
    hide Transition;
    assert map["x" := First()]["x" := Claim()] == map["x" := Claim()];
  }

  // ---- the run ----

  function At0(table: Table, pc: Pc, minted: set<string>, commits: set<Route>, calls: seq<Call>): World {
    World(0, table, map[0 := Thread("x", pc, None)], minted, commits, calls, {})
  }

  lemma RunUnfolds(w: World)
    requires 0 in w.threads
    ensures match w.threads[0].pc
            case SubmitStart(q) => Next(w, Run(0, Outside)) == StepSubmitStart(w, 0, q)
            case SubmitClocked(q, read) => Next(w, Run(0, Outside)) == StepSubmitClocked(w, 0, q, read)
            case Preparing(q, read, task) => "x" !in w.minted ==> Next(w, Run(0, Outside)) == StepPreparing(w, 0, q, read, task, Outside)
            case Claiming(task, r) => Next(w, Run(0, Outside)) == StepClaiming(w, 0, task, r)
            case _ => true
  {
    hide StepSubmitStart, StepSubmitClocked, StepRecovering, StepPreparing, StepClaimed, StepAwaiting, StepRebinding,
      StepBound, StepRefetching, StepCheckingSource, StepGetStart, StepGetRead, StepPolled, StepCancelStart,
      StepCancelRead, StepClaiming, StepDecliningDispatch, StepLooping, StepBinding, StepReviving, StepBeginning,
      StepCommitted, StepForwardingCancel, StepPolling;
  }

  lemma SubmissionSteps()
    ensures Next(At0(map[], SubmitStart(Ask), {}, {}, []), Run(0, Outside)) == At0(map[], SubmitClocked(Ask, 0), {}, {}, [])
    ensures Next(At0(map[], SubmitClocked(Ask, 0), {}, {}, []), Run(0, Outside)) == At0(map[], Preparing(Ask, 0, Task), {}, {}, [])
    ensures Next(At0(map[], Preparing(Ask, 0, Task), {}, {}, []), Run(0, Outside))
         == At0(map[], Beginning(Ask, 0, Task, First()), {"x"}, {}, [])
  {
    hide Parse, PrepareWithId, SqlPurge, SqlBegin, ValidCaller, ValidIdentifier, TaskIdentifier, First, Next;
    PlainName();
    TaskParses();
    RecordIsPrepared();
    EmptyTableInserts();
    RunUnfolds(At0(map[], SubmitStart(Ask), {}, {}, []));
    RunUnfolds(At0(map[], SubmitClocked(Ask, 0), {}, {}, []));
    RunUnfolds(At0(map[], Preparing(Ask, 0, Task), {}, {}, []));
    assert {} + {"x"} == {"x"};
  }

  lemma InsertStep()
    ensures Next(At0(map[], Beginning(Ask, 0, Task, First()), {"x"}, {}, []), Run(0, Outside))
         == At0(map["x" := First()], Claiming(Task, First()), {"x"}, {First()}, [])
  {
    EmptyTableInserts();
    hide SqlBegin, First;
    assert {} + {First()} == {First()};
  }

  lemma ClaimStep()
    ensures Next(At0(map["x" := First()], Claiming(Task, First()), {"x"}, {First()}, []), Run(0, Outside))
         == At0(map["x" := Claim()], Claimed(Task, Claim()), {"x"}, {First(), Claim()}, [])
  {
    ClaimWins();
    assert First().caller == Someone && First().id == "x" && First().version == 0 && First().updated == 0;
    hide SqlCas, First, Claim, Next;
    RunUnfolds(At0(map["x" := First()], Claiming(Task, First()), {"x"}, {First()}, []));
    assert {First()} + {Claim()} == {First(), Claim()};
  }

  lemma CallSteps()
    ensures Next(At0(map["x" := Claim()], Claimed(Task, Claim()), {"x"}, {First(), Claim()}, []), Run(0, Outside))
         == At0(map["x" := Claim()], Committed(Task, Claim()), {"x"}, {First(), Claim()}, [])
    ensures Next(At0(map["x" := Claim()], Committed(Task, Claim()), {"x"}, {First(), Claim()}, []), Run(0, Outside))
         == At0(map["x" := Claim()], Awaiting(Claim()), {"x"}, {First(), Claim()}, [Call(Someone, Task, Claim())])
  {
    assert Claim().caller == Someone && ExecutionCutoff(Claim()) == 1_000;
    hide First, Claim, ExecutionCutoff;
  }

  /** One more step of an execution. */
  lemma Extend(run: seq<World>, a: Action, w: World) returns (longer: seq<World>)
    requires run != [] && Execution(run) && Enabled(run[|run| - 1], a) && Next(run[|run| - 1], a) == w
    ensures longer != [] && Execution(longer) && longer[|longer| - 1] == w
  {
    hide Init, Next, Enabled;
    longer := run + [w];
    forall k | 0 < k < |longer|
      ensures Steps(longer[k - 1], longer[k])
    {
      if k < |run| {
        assert Steps(run[k - 1], run[k]);
      } else {
        assert longer[k - 1] == run[|run| - 1];
      }
    }
  }

  lemma PreparationIsReachable() returns (run: seq<World>)
    ensures run != [] && Execution(run) && run[|run| - 1] == At0(map[], Beginning(Ask, 0, Task, First()), {"x"}, {}, [])
  {
    var start := World(0, map[], map[], {}, {}, [], {});
    assert Next(start, Spawn(0, "x", SubmitStart(Ask))) == At0(map[], SubmitStart(Ask), {}, {}, []);
    SubmissionSteps();
    run := [start];
    assert Execution(run);
    hide Execution, StepThread, First;
    run := Extend(run, Spawn(0, "x", SubmitStart(Ask)), At0(map[], SubmitStart(Ask), {}, {}, []));
    run := Extend(run, Run(0, Outside), At0(map[], SubmitClocked(Ask, 0), {}, {}, []));
    run := Extend(run, Run(0, Outside), At0(map[], Preparing(Ask, 0, Task), {}, {}, []));
    run := Extend(run, Run(0, Outside), At0(map[], Beginning(Ask, 0, Task, First()), {"x"}, {}, []));
  }

  lemma DispatchIsReachable() returns (run: seq<World>)
    ensures run != [] && Execution(run)
    ensures run[|run| - 1]
         == At0(map["x" := Claim()], Awaiting(Claim()), {"x"}, {First(), Claim()}, [Call(Someone, Task, Claim())])
  {
    hide Execution, StepThread, First, Claim;
    InsertStep();
    ClaimStep();
    CallSteps();
    run := PreparationIsReachable();
    run := Extend(run, Run(0, Outside), At0(map["x" := First()], Claiming(Task, First()), {"x"}, {First()}, []));
    run := Extend(run, Run(0, Outside), At0(map["x" := Claim()], Claimed(Task, Claim()), {"x"}, {First(), Claim()}, []));
    run := Extend(run, Run(0, Outside), At0(map["x" := Claim()], Committed(Task, Claim()), {"x"}, {First(), Claim()}, []));
    run := Extend(run, Run(0, Outside),
                  At0(map["x" := Claim()], Awaiting(Claim()), {"x"}, {First(), Claim()}, [Call(Someone, Task, Claim())]));
  }

  /** Some execution sends the submission upstream. */
  lemma CallIsReachable() returns (run: seq<World>)
    ensures run != [] && Execution(run) && run[|run| - 1].calls == [Call(Someone, Task, Claim())]
  {
    hide Execution, First, Claim;
    run := DispatchIsReachable();
  }

  // ---- losing a task ----

  const Accepting := Outside.(reply := TaskCreated("x", true))
  const Handed := Receipt("x", "x")

  function HandedOver(pc: Pc): World {
    World(0, map["x" := Claim()], map[0 := Thread("x", pc, Some(Handed))], {"x"}, {First(), Claim()}, [Call(Someone, Task, Claim())], {})
  }

  function Taken(): Pc {
    Binding(Claim(), Claim(), "x", true, MAX_CAS_ATTEMPTS)
  }

  lemma ReplyStep()
    ensures Next(At0(map["x" := Claim()], Awaiting(Claim()), {"x"}, {First(), Claim()}, [Call(Someone, Task, Claim())]), Run(0, Accepting))
         == HandedOver(Taken())
  {
    PlainName();
    assert ValidIdentifier("x", MAX_UPSTREAM_ID_BYTES);
    assert Claim().id == "x";
    hide ValidIdentifier, First, Claim;
  }

  lemma NobodyHasTask(pc: Pc)
    ensures !Settled(HandedOver(pc), Handed)
  {
    assert First().upstream.None? && Claim().upstream.None?;
    hide First, Claim;
  }

  /** A handler dropped with an upstream task in hand loses it: no record names it and no cancel request was sent. */
  lemma DropCanLoseTask() returns (run: seq<World>)
    ensures run != [] && Execution(run)
    ensures var w := run[|run| - 1]; 0 in w.threads && w.threads[0].received == Some(Handed) && !Settled(w, Handed)
  {
    hide Execution, StepThread, First, Claim;
    ReplyStep();
    NobodyHasTask(Dropped(Taken()));
    run := DispatchIsReachable();
    run := Extend(run, Run(0, Accepting), HandedOver(Taken()));
    run := Extend(run, Drop(0), HandedOver(Dropped(Taken())));
  }
}
