/** One test class that requests `slurm_dbd`.  pytest sets the fixtures up in
    dependency order (`vpc_stack_for_database`, `database`, `munge_key`,
    `slurm_dbd`), registers a finalizer after each `yield`, runs the test only
    when every setup yielded, and then runs the registered finalizers last
    first.  That ordering comes from the framework; it is modelled here
    explicitly as a trace of the requests the fixtures make. */
module Session {
  import opened Wrappers
  import opened Stacks
  import opened Credentials
  import opened Fixtures
  import opened Errors

  /** The fixtures that own a stack factory. */
  datatype FixtureName = VpcStackFixture | DatabaseFixture | SlurmDbdFixture

  /** The order in which those fixtures are set up. */
  const ChainOrder: seq<FixtureName> := [VpcStackFixture, DatabaseFixture, SlurmDbdFixture]

  /** What can be observed of a run: a request on the factory of a fixture,
      a secret handed to the secret store, and the test body itself. */
  datatype Event =
    | FactoryCall(fixture: FixtureName, call: Call)
    | SecretStored(put: SecretPut)
    | TestBody

  function Tagged(f: FixtureName, calls: seq<Call>): (es: seq<Event>)
    ensures |es| == |calls|
    ensures forall i :: 0 <= i < |calls| ==> es[i] == FactoryCall(f, calls[i])
  {
    seq(|calls|, i requires 0 <= i < |calls| => FactoryCall(f, calls[i]))
  }

  lemma TaggedMember(f: FixtureName, calls: seq<Call>, e: Event)
    requires e in Tagged(f, calls)
    ensures e.FactoryCall? && e.fixture == f && e.call in calls
  {
    var i :| 0 <= i < |calls| && Tagged(f, calls)[i] == e;
  }

  /** A registered finalizer: the teardown half of a fixture that yielded. */
  datatype Pending = Pending(fixture: FixtureName, teardown: Teardown)

  /** The finalizers run last registered first. */
  function Unwind(ps: seq<Pending>, noDelete: bool): seq<Event>
    decreases |ps|
  {
    if ps == [] then []
    else
      var last := ps[|ps| - 1];
      Tagged(last.fixture, TeardownCalls(noDelete, last.teardown)) + Unwind(ps[..|ps| - 1], noDelete)
  }

  /** The setup phase of a run: what it did, the finalizers it registered,
      and whether the test body ran. */
  datatype Chain = Chain(setupEvents: seq<Event>, pending: seq<Pending>, completed: bool)

  /** The setup phase, given what each setup does on its own: a setup runs
      only when the ones before it yielded, and the test body only when all
      of them did. */
  function Assemble(vpc: Setup, db: Setup, mk: MungeKeySetup, dbd: Setup, region: string): (c: Chain)
    ensures c.completed <==> vpc.stack.Ok? && db.stack.Ok? && dbd.stack.Ok?
    ensures |c.pending| == if vpc.stack.Err? then 0 else if db.stack.Err? then 1 else if dbd.stack.Err? then 2 else 3
    ensures forall i :: 0 <= i < |c.pending| ==> c.pending[i].fixture == ChainOrder[i]
    ensures TestBody in c.setupEvents <==> c.completed
  {
    var events := Tagged(VpcStackFixture, vpc.calls);
    if vpc.stack.Err? then Chain(events, [], false)
    else
      var rest := AssembleFromDatabase(db, mk, dbd, region);
      Chain(events + rest.setupEvents,
            [Pending(VpcStackFixture, TeardownFor(vpc.stack.value, region))] + rest.pending, rest.completed)
  }

  /** The part of the setup phase that follows a VPC that yielded.
      `munge_key` sits between `database` and `slurm_dbd`. */
  function AssembleFromDatabase(db: Setup, mk: MungeKeySetup, dbd: Setup, region: string): (c: Chain)
    ensures c.completed <==> db.stack.Ok? && dbd.stack.Ok?
    ensures |c.pending| == if db.stack.Err? then 0 else if dbd.stack.Err? then 1 else 2
    ensures forall i :: 0 <= i < |c.pending| ==> c.pending[i].fixture == ChainOrder[i + 1]
    ensures TestBody in c.setupEvents <==> c.completed
  {
    if db.stack.Err? then Chain(Tagged(DatabaseFixture, db.calls), [], false)
    else
      var dbPending := [Pending(DatabaseFixture, TeardownFor(db.stack.value, region))];
      var dbdPending := if dbd.stack.Ok? then [Pending(SlurmDbdFixture, TeardownFor(dbd.stack.value, region))] else [];
      Chain(FromDatabaseEvents(db.calls, mk, dbd), dbPending + dbdPending, dbd.stack.Ok?)
  }

  /** The setup events once the database yielded: its requests, the secret
      `munge_key` stored, the requests of `slurm_dbd`, and the test body when
      that yielded too. */
  function FromDatabaseEvents(dbCalls: seq<Call>, mk: MungeKeySetup, dbd: Setup): seq<Event> {
    var stored := if mk.stored.Some? then [SecretStored(mk.stored.value)] else [];
    var test := if dbd.stack.Ok? then [TestBody] else [];
    Tagged(DatabaseFixture, dbCalls) + (stored + (Tagged(SlurmDbdFixture, dbd.calls) + test))
  }

  /** Each event of the setup phase comes from the setup it is tagged with,
      and only from a setup that was reached. */
  lemma AssembleEvents(vpc: Setup, db: Setup, mk: MungeKeySetup, dbd: Setup, region: string, e: Event)
    requires e in Assemble(vpc, db, mk, dbd, region).setupEvents
    ensures e.FactoryCall? && e.fixture == VpcStackFixture ==> e.call in vpc.calls
    ensures e.FactoryCall? && e.fixture == DatabaseFixture ==> vpc.stack.Ok? && e.call in db.calls
    ensures e.FactoryCall? && e.fixture == SlurmDbdFixture ==> vpc.stack.Ok? && db.stack.Ok? && e.call in dbd.calls
    ensures e.SecretStored? ==> vpc.stack.Ok? && db.stack.Ok? && mk.stored == Some(e.put)
  {
    var vpcEvents := Tagged(VpcStackFixture, vpc.calls);
    if e in vpcEvents {
      TaggedMember(VpcStackFixture, vpc.calls, e);
    } else {
      var dbEvents := Tagged(DatabaseFixture, db.calls);
      if e in dbEvents {
        TaggedMember(DatabaseFixture, db.calls, e);
      } else {
        var stored := if mk.stored.Some? then [SecretStored(mk.stored.value)] else [];
        if e in Tagged(SlurmDbdFixture, dbd.calls) {
          TaggedMember(SlurmDbdFixture, dbd.calls, e);
        } else if e !in stored {
          assert e == TestBody;
        }
      }
    }
  }

  /** The setup phase of the chain for these options, environment and draws. */
  function SetUpChain(opts: Options, env: Environment, d: Draws): Chain
    requires ValidDraws(env, d)
  {
    var mk := MungeKeyFor(opts, env, d);
    Assemble(VpcSetup(opts, env), DatabaseSetup(opts, env, d), mk, SlurmDbdSetup(opts, env, d, mk.key.secretArn),
             env.region)
  }

  /** Everything a run does, in order. */
  function ChainTrace(opts: Options, env: Environment, d: Draws): seq<Event>
    requires ValidDraws(env, d)
  {
    var c := SetUpChain(opts, env, d);
    c.setupEvents + Unwind(c.pending, opts.noDelete)
  }

  /** The setup phase: set the fixtures up one after the other while they
      succeed, registering a finalizer, and the factory it tears down with,
      for each one that yields.  Each fixture has a factory of its own, which
      holds exactly the requests the trace tags with that fixture. */
  method SetUpAll(opts: Options, env: Environment, d: Draws)
    returns (trace: seq<Event>, factories: seq<StackFactory>, finalizers: seq<Pending>)
    requires ValidDraws(env, d)
    ensures trace == SetUpChain(opts, env, d).setupEvents
    ensures finalizers == SetUpChain(opts, env, d).pending
    ensures |factories| == |finalizers| && forall j :: 0 <= j < |factories| ==> fresh(factories[j])
    ensures forall i, j :: 0 <= i < j < |factories| ==> factories[i] != factories[j]
    ensures forall j :: 0 <= j < |factories| ==> factories[j].calls == CallsOf(trace, finalizers[j].fixture)
  {
    var vpcFactory, vpc := SetUpVpc(opts, env);
    trace, factories, finalizers := Tagged(VpcStackFixture, vpcFactory.calls), [], [];
    if vpc.Ok? {
      var rest, restFactories, restFinalizers := SetUpFromDatabase(opts, env, d);
      assert forall j :: 0 <= j < |restFactories| ==> restFactories[j] != vpcFactory;
      trace, factories, finalizers := RegisterVpc(vpcFactory, vpc.value, env.region, rest, restFactories, restFinalizers);
    }
  }

  /** The VPC's setup events and finalizer come before those of the fixtures
      that depend on it. */
  method RegisterVpc(vpcFactory: StackFactory, vpc: Stack, region: string,
                     rest: seq<Event>, restFactories: seq<StackFactory>, restFinalizers: seq<Pending>)
    returns (trace: seq<Event>, factories: seq<StackFactory>, finalizers: seq<Pending>)
    requires |restFactories| == |restFinalizers|
    requires forall j :: 0 <= j < |restFactories| ==> restFactories[j] != vpcFactory
    requires forall i, j :: 0 <= i < j < |restFactories| ==> restFactories[i] != restFactories[j]
    requires forall j :: 0 <= j < |restFinalizers| ==> restFinalizers[j].fixture != VpcStackFixture
    requires CallsOf(rest, VpcStackFixture) == []
    requires forall j :: 0 <= j < |restFactories| ==> restFactories[j].calls == CallsOf(rest, restFinalizers[j].fixture)
    ensures trace == Tagged(VpcStackFixture, vpcFactory.calls) + rest
    ensures factories == [vpcFactory] + restFactories
    ensures finalizers == [Pending(VpcStackFixture, TeardownFor(vpc, region))] + restFinalizers
    ensures forall i, j :: 0 <= i < j < |factories| ==> factories[i] != factories[j]
    ensures forall j :: 0 <= j < |factories| ==> factories[j].calls == CallsOf(trace, finalizers[j].fixture)
  {
    var vpcEvents := Tagged(VpcStackFixture, vpcFactory.calls);
    trace := vpcEvents + rest;
    factories := [vpcFactory] + restFactories;
    finalizers := [Pending(VpcStackFixture, TeardownFor(vpc, region))] + restFinalizers;
    forall j | 0 <= j < |factories|
      ensures factories[j].calls == CallsOf(trace, finalizers[j].fixture)
    {
      var f := finalizers[j].fixture;
      CallsOfConcat(vpcEvents, rest, f);
      CallsOfTagged(VpcStackFixture, vpcFactory.calls, f);
      if j > 0 {
        assert f == restFinalizers[j - 1].fixture && factories[j] == restFactories[j - 1];
      }
    }
  }

  /** The setup phase once the VPC has yielded. */
  method SetUpFromDatabase(opts: Options, env: Environment, d: Draws)
    returns (trace: seq<Event>, factories: seq<StackFactory>, finalizers: seq<Pending>)
    requires ValidDraws(env, d)
    ensures var mk := MungeKeyFor(opts, env, d);
      var c := AssembleFromDatabase(DatabaseSetup(opts, env, d), mk, SlurmDbdSetup(opts, env, d, mk.key.secretArn),
                                    env.region);
      trace == c.setupEvents && finalizers == c.pending
    ensures |factories| == |finalizers| && forall j :: 0 <= j < |factories| ==> fresh(factories[j])
    ensures forall i, j :: 0 <= i < j < |factories| ==> factories[i] != factories[j]
    ensures forall j :: 0 <= j < |factories| ==> factories[j].calls == CallsOf(trace, finalizers[j].fixture)
    ensures forall j :: 0 <= j < |finalizers| ==> finalizers[j].fixture != VpcStackFixture
    ensures CallsOf(trace, VpcStackFixture) == []
  {
    ghost var dbSpec := DatabaseSetup(opts, env, d);
    var dbFactory, db := SetUpDatabase(opts, env, d);
    assert Setup(dbFactory.calls, db) == dbSpec;
    if db.Err? {
      trace, factories, finalizers := Tagged(DatabaseFixture, dbFactory.calls), [], [];
      CallsOfTagged(DatabaseFixture, dbFactory.calls, VpcStackFixture);
      return;
    }
    var mk := MungeKeyFor(opts, env, d);
    ghost var dbdSpec := SlurmDbdSetup(opts, env, d, mk.key.secretArn);
    var dbdFactory, dbd := SetUpSlurmDbd(opts, env, d, mk.key.secretArn);
    assert Setup(dbdFactory.calls, dbd) == dbdSpec;
    trace, factories, finalizers := RegisterFromDatabase(dbFactory, db.value, mk, dbdFactory, dbd, env.region);
  }

  /** What follows the `database` and `slurm_dbd` setups once the database
      yielded: the trace they leave, and the finalizers registered with the
      factory each tears down with. */
  method RegisterFromDatabase(dbFactory: StackFactory, db: Stack, mk: MungeKeySetup,
                              dbdFactory: StackFactory, dbd: Result<Stack, Error>, region: string)
    returns (trace: seq<Event>, factories: seq<StackFactory>, finalizers: seq<Pending>)
    requires dbFactory != dbdFactory
    ensures trace == FromDatabaseEvents(dbFactory.calls, mk, Setup(dbdFactory.calls, dbd))
    ensures finalizers == [Pending(DatabaseFixture, TeardownFor(db, region))] +
      if dbd.Ok? then [Pending(SlurmDbdFixture, TeardownFor(dbd.value, region))] else []
    ensures |factories| == |finalizers| && forall j :: 0 <= j < |factories| ==> factories[j] in {dbFactory, dbdFactory}
    ensures forall i, j :: 0 <= i < j < |factories| ==> factories[i] != factories[j]
    ensures forall j :: 0 <= j < |factories| ==> factories[j].calls == CallsOf(trace, finalizers[j].fixture)
    ensures forall j :: 0 <= j < |finalizers| ==> finalizers[j].fixture != VpcStackFixture
    ensures CallsOf(trace, VpcStackFixture) == []
  {
    var dbdSetup := Setup(dbdFactory.calls, dbd);
    trace := FromDatabaseEvents(dbFactory.calls, mk, dbdSetup);
    FromDatabaseEventsCallsOf(dbFactory.calls, mk, dbdSetup, VpcStackFixture);
    FromDatabaseEventsCallsOf(dbFactory.calls, mk, dbdSetup, DatabaseFixture);
    FromDatabaseEventsCallsOf(dbFactory.calls, mk, dbdSetup, SlurmDbdFixture);
    finalizers := [Pending(DatabaseFixture, TeardownFor(db, region))];
    factories := [dbFactory];
    if dbd.Ok? {
      finalizers := finalizers + [Pending(SlurmDbdFixture, TeardownFor(dbd.value, region))];
      factories := factories + [dbdFactory];
    }
  }

  /** pytest's finalizer stack: pop and run the registered teardowns.  Each
      factory receives the requests of its own finalizer and no others. */
  method TearDownAll(factories: seq<StackFactory>, finalizers: seq<Pending>, noDelete: bool)
    returns (trace: seq<Event>)
    requires |factories| == |finalizers|
    requires forall i, j :: 0 <= i < j < |factories| ==> factories[i] != factories[j]
    modifies set j | 0 <= j < |factories| :: factories[j]
    ensures trace == Unwind(finalizers, noDelete)
    ensures forall j :: 0 <= j < |factories| ==>
      factories[j].calls == old(factories[j].calls) + TeardownCalls(noDelete, finalizers[j].teardown)
  {
    trace := [];
    var k := |finalizers|;
    assert finalizers[..k] == finalizers;
    while k > 0
      invariant 0 <= k <= |finalizers|
      invariant trace + Unwind(finalizers[..k], noDelete) == Unwind(finalizers, noDelete)
      invariant forall j :: 0 <= j < k ==> factories[j].calls == old(factories[j].calls)
      invariant forall j :: k <= j < |factories| ==>
        factories[j].calls == old(factories[j].calls) + TeardownCalls(noDelete, finalizers[j].teardown)
      decreases k
    {
      k := k - 1;
      var factory := factories[k];
      var before := factory.calls;
      TearDown(factory, noDelete, finalizers[k].teardown);
      var made := factory.calls[|before|..];
      assert made == TeardownCalls(noDelete, finalizers[k].teardown);
      UnwindStep(finalizers, k, noDelete);
      trace := trace + Tagged(finalizers[k].fixture, made);
    }
    assert finalizers[..0] == [];
  }

  /** Running finalizer `k` first and then those before it is unwinding the
      first `k + 1`. */
  lemma UnwindStep(ps: seq<Pending>, k: nat, noDelete: bool)
    requires k < |ps|
    ensures Unwind(ps[..k + 1], noDelete) ==
      Tagged(ps[k].fixture, TeardownCalls(noDelete, ps[k].teardown)) + Unwind(ps[..k], noDelete)
  {
    assert ps[..k + 1][..k] == ps[..k];
  }

  /** A whole run: the setup phase, the test body when it completed, and the
      finalizers, last registered first.  The factory of each fixture that
      yielded ends up holding exactly the requests the trace tags with that
      fixture. */
  method RunChain(opts: Options, env: Environment, d: Draws) returns (trace: seq<Event>, factories: seq<StackFactory>)
    requires ValidDraws(env, d)
    ensures trace == ChainTrace(opts, env, d)
    ensures |factories| == |SetUpChain(opts, env, d).pending|
    ensures forall i, j :: 0 <= i < j < |factories| ==> factories[i] != factories[j]
    ensures forall f :: IndexOf(f) < |factories| ==> factories[IndexOf(f)].calls == CallsOf(trace, f)
  {
    var setup, finalizers;
    setup, factories, finalizers := SetUpAll(opts, env, d);
    label setUp:
    var teardown := TearDownAll(factories, finalizers, opts.noDelete);
    trace := setup + teardown;
    forall f | IndexOf(f) < |factories|
      ensures factories[IndexOf(f)].calls == CallsOf(trace, f)
    {
      var j := IndexOf(f);
      assert old@setUp(factories[j].calls) == CallsOf(setup, f);
      CallsOfConcat(setup, teardown, f);
      UnwindCallsOf(finalizers, opts.noDelete, f);
    }
  }

  // ------------------------------------------------------------ lemmas

  /** Every finalizer makes at most one request, and only deletions. */
  lemma {:induction false} UnwindOnlyDeletes(ps: seq<Pending>, noDelete: bool)
    ensures forall e :: e in Unwind(ps, noDelete) ==> e.FactoryCall? && IsDeletion(e.call)
    decreases |ps|
  {
    if ps != [] {
      UnwindOnlyDeletes(ps[..|ps| - 1], noDelete);
    }
  }

  /** Under `no_delete` the finalizers make no request at all. */
  lemma {:induction false} UnwindUnderNoDelete(ps: seq<Pending>)
    ensures Unwind(ps, true) == []
    decreases |ps|
  {
    if ps != [] {
      UnwindUnderNoDelete(ps[..|ps| - 1]);
    }
  }

  /** Otherwise each finalizer makes exactly one deletion, last registered
      first, on the factory of its own fixture. */
  lemma {:induction false} UnwindReverses(ps: seq<Pending>)
    ensures |Unwind(ps, false)| == |ps|
    ensures forall k :: 0 <= k < |ps| ==>
      Unwind(ps, false)[k] == FactoryCall(ps[|ps| - 1 - k].fixture, TeardownCalls(false, ps[|ps| - 1 - k].teardown)[0])
    decreases |ps|
  {
    if ps != [] {
      var init := ps[..|ps| - 1];
      UnwindReverses(init);
      forall k | 1 <= k < |ps|
        ensures Unwind(ps, false)[k] == FactoryCall(ps[|ps| - 1 - k].fixture, TeardownCalls(false, ps[|ps| - 1 - k].teardown)[0])
      {
        assert Unwind(ps, false)[k] == Unwind(init, false)[k - 1];
        assert init[|init| - 1 - (k - 1)] == ps[|ps| - 1 - k];
      }
    }
  }

  /** With `--no-delete` a run deletes nothing. */
  lemma NoDeleteDeletesNothing(opts: Options, env: Environment, d: Draws)
    requires ValidDraws(env, d) && opts.noDelete
    ensures ChainTrace(opts, env, d) == SetUpChain(opts, env, d).setupEvents
    ensures forall e :: e in ChainTrace(opts, env, d) && e.FactoryCall? ==> !IsDeletion(e.call)
  {
    UnwindUnderNoDelete(SetUpChain(opts, env, d).pending);
    SetupEventsCreateOnly(opts, env, d);
  }

  /** The setup phase makes no deletion: every request it makes is a create. */
  lemma SetupEventsCreateOnly(opts: Options, env: Environment, d: Draws)
    requires ValidDraws(env, d)
    ensures forall e :: e in SetUpChain(opts, env, d).setupEvents && e.FactoryCall? ==> e.call.CreateCall?
  {
    var mk := MungeKeyFor(opts, env, d);
    var vpc := VpcSetup(opts, env);
    var db := DatabaseSetup(opts, env, d);
    var dbd := SlurmDbdSetup(opts, env, d, mk.key.secretArn);
    SetupsOnlyCreate(opts, env, d, mk.key.secretArn);
    forall e | e in Assemble(vpc, db, mk, dbd, env.region).setupEvents && e.FactoryCall?
      ensures e.call.CreateCall?
    {
      AssembleEvents(vpc, db, mk, dbd, env.region, e);
    }
  }

  /** The test body runs exactly when every setup yielded. */
  lemma TestRunsIffChainCompletes(opts: Options, env: Environment, d: Draws)
    requires ValidDraws(env, d)
    ensures TestBody in ChainTrace(opts, env, d) <==> SetUpChain(opts, env, d).completed
  {
    var c := SetUpChain(opts, env, d);
    UnwindOnlyDeletes(c.pending, opts.noDelete);
    assert TestBody !in Unwind(c.pending, opts.noDelete);
  }

  /** After a completed run without `--no-delete` the stacks go in the reverse
      of their setup order: `slurm_dbd` by name, `database` by name (borrowed
      or not), then the VPC fixture clears its own factory. */
  lemma CompletedChainTearsDownInReverse(opts: Options, env: Environment, d: Draws)
    requires ValidDraws(env, d) && SetUpChain(opts, env, d).completed && !opts.noDelete
    ensures ChainTrace(opts, env, d) == SetUpChain(opts, env, d).setupEvents + [
      FactoryCall(SlurmDbdFixture, DeleteCall(SlurmDbdStackName(opts, env), env.region)),
      FactoryCall(DatabaseFixture, DeleteCall(DatabaseStackName(opts, env), env.region)),
      FactoryCall(VpcStackFixture, DeleteAllCall)]
  {
    var mk := MungeKeyFor(opts, env, d);
    var vpc := VpcSetup(opts, env);
    var db := DatabaseSetup(opts, env, d);
    var dbd := SlurmDbdSetup(opts, env, d, mk.key.secretArn);
    AssembleCompleted(vpc, db, mk, dbd, env.region);
    UnwindReverses(Assemble(vpc, db, mk, dbd, env.region).pending);
  }

  /** A completed setup phase registered the three finalizers in order. */
  lemma AssembleCompleted(vpc: Setup, db: Setup, mk: MungeKeySetup, dbd: Setup, region: string)
    requires vpc.stack.Ok? && db.stack.Ok? && dbd.stack.Ok?
    ensures Assemble(vpc, db, mk, dbd, region).pending == [
      Pending(VpcStackFixture, TeardownFor(vpc.stack.value, region)),
      Pending(DatabaseFixture, TeardownFor(db.stack.value, region)),
      Pending(SlurmDbdFixture, TeardownFor(dbd.stack.value, region))]
  {
  }

  /** A run that stops at a failed setup skips the test and still runs the
      finalizers of the fixtures that did yield, in reverse order. */
  lemma FailedSetupUnwindsWhatYielded(opts: Options, env: Environment, d: Draws)
    requires ValidDraws(env, d) && !SetUpChain(opts, env, d).completed
    ensures TestBody !in ChainTrace(opts, env, d)
    ensures var c := SetUpChain(opts, env, d);
      var teardown := ChainTrace(opts, env, d)[|c.setupEvents|..];
      && |c.pending| < 3
      && (opts.noDelete ==> teardown == [])
      && (!opts.noDelete ==>
            && |teardown| == |c.pending|
            && forall k :: 0 <= k < |teardown| ==>
                 teardown[k].FactoryCall? && IsDeletion(teardown[k].call)
                 && teardown[k].fixture == ChainOrder[|c.pending| - 1 - k])
  {
    var c := SetUpChain(opts, env, d);
    TestRunsIffChainCompletes(opts, env, d);
    assert ChainTrace(opts, env, d)[|c.setupEvents|..] == Unwind(c.pending, opts.noDelete);
    if opts.noDelete {
      UnwindUnderNoDelete(c.pending);
    } else {
      UnwindReverses(c.pending);
    }
  }

  /** The requests recorded by the factory of fixture `f`. */
  function CallsOf(trace: seq<Event>, f: FixtureName): seq<Call>
    decreases |trace|
  {
    if trace == [] then []
    else (if trace[0].FactoryCall? && trace[0].fixture == f then [trace[0].call] else []) + CallsOf(trace[1..], f)
  }

  lemma {:induction false} CallsOfConcat(a: seq<Event>, b: seq<Event>, f: FixtureName)
    ensures CallsOf(a + b, f) == CallsOf(a, f) + CallsOf(b, f)
    decreases |a|
  {
    if a == [] {
      assert a + b == b;
    } else {
      assert (a + b)[0] == a[0];
      assert (a + b)[1..] == a[1..] + b;
      CallsOfConcat(a[1..], b, f);
    }
  }

  lemma {:induction false} CallsOfTagged(g: FixtureName, cs: seq<Call>, f: FixtureName)
    ensures CallsOf(Tagged(g, cs), f) == if g == f then cs else []
    decreases |cs|
  {
    if cs != [] {
      assert Tagged(g, cs)[1..] == Tagged(g, cs[1..]);
      CallsOfTagged(g, cs[1..], f);
    }
  }

  lemma {:induction false} CallsOfNoFactory(es: seq<Event>, f: FixtureName)
    requires forall e :: e in es ==> !e.FactoryCall?
    ensures CallsOf(es, f) == []
    decreases |es|
  {
    if es != [] {
      assert es[0] in es;
      assert forall e :: e in es[1..] ==> e in es;
      CallsOfNoFactory(es[1..], f);
    }
  }

  /** What the setup phase records on the factory of each fixture: the calls
      of its own setup, when that setup is reached. */
  lemma AssembleCallsOf(vpc: Setup, db: Setup, mk: MungeKeySetup, dbd: Setup, region: string, f: FixtureName)
    ensures CallsOf(Assemble(vpc, db, mk, dbd, region).setupEvents, f) ==
      match f
      case VpcStackFixture => vpc.calls
      case DatabaseFixture => if vpc.stack.Ok? then db.calls else []
      case SlurmDbdFixture => if vpc.stack.Ok? && db.stack.Ok? then dbd.calls else []
  {
    var vpcEvents := Tagged(VpcStackFixture, vpc.calls);
    CallsOfTagged(VpcStackFixture, vpc.calls, f);
    if vpc.stack.Ok? {
      var rest := AssembleFromDatabase(db, mk, dbd, region).setupEvents;
      assert Assemble(vpc, db, mk, dbd, region).setupEvents == vpcEvents + rest;
      CallsOfConcat(vpcEvents, rest, f);
      AssembleFromDatabaseCallsOf(db, mk, dbd, region, f);
    }
  }

  lemma AssembleFromDatabaseCallsOf(db: Setup, mk: MungeKeySetup, dbd: Setup, region: string, f: FixtureName)
    ensures CallsOf(AssembleFromDatabase(db, mk, dbd, region).setupEvents, f) ==
      match f
      case VpcStackFixture => []
      case DatabaseFixture => db.calls
      case SlurmDbdFixture => if db.stack.Ok? then dbd.calls else []
  {
    if db.stack.Err? {
      CallsOfTagged(DatabaseFixture, db.calls, f);
    } else {
      FromDatabaseEventsCallsOf(db.calls, mk, dbd, f);
    }
  }


  /** The calls tagged with each fixture in the setup events past the VPC:
      the secret and the test body are not requests on a factory. */
  lemma FromDatabaseEventsCallsOf(dbCalls: seq<Call>, mk: MungeKeySetup, dbd: Setup, f: FixtureName)
    ensures CallsOf(FromDatabaseEvents(dbCalls, mk, dbd), f) ==
      match f
      case VpcStackFixture => []
      case DatabaseFixture => dbCalls
      case SlurmDbdFixture => dbd.calls
  {
    var stored: seq<Event> := if mk.stored.Some? then [SecretStored(mk.stored.value)] else [];
    var test: seq<Event> := if dbd.stack.Ok? then [TestBody] else [];
    assert FromDatabaseEvents(dbCalls, mk, dbd) ==
      Tagged(DatabaseFixture, dbCalls) + (stored + (Tagged(SlurmDbdFixture, dbd.calls) + test));
    FromDatabaseCallsOf(dbCalls, stored, dbd.calls, test, f);
  }

  lemma FromDatabaseCallsOf(dbCalls: seq<Call>, stored: seq<Event>, dbdCalls: seq<Call>, test: seq<Event>,
                            f: FixtureName)
    requires forall e :: e in stored ==> !e.FactoryCall?
    requires forall e :: e in test ==> !e.FactoryCall?
    ensures CallsOf(Tagged(DatabaseFixture, dbCalls) + (stored + (Tagged(SlurmDbdFixture, dbdCalls) + test)), f) ==
      (if f == DatabaseFixture then dbCalls else []) + (if f == SlurmDbdFixture then dbdCalls else [])
  {
    var dbEvents, dbdEvents := Tagged(DatabaseFixture, dbCalls), Tagged(SlurmDbdFixture, dbdCalls);
    CallsOfNoFactory(stored, f);
    CallsOfNoFactory(test, f);
    CallsOfTagged(DatabaseFixture, dbCalls, f);
    CallsOfTagged(SlurmDbdFixture, dbdCalls, f);
    CallsOfConcat(dbdEvents, test, f);
    CallsOfConcat(stored, dbdEvents + test, f);
    CallsOfConcat(dbEvents, stored + (dbdEvents + test), f);
  }

  /** The factory of `vpc_stack_for_database` only ever records the VPC
      stack, so the `delete_all_stacks` it ends with removes that stack and
      nothing the other fixtures created. */
  lemma VpcFactoryHoldsOnlyTheVpc(opts: Options, env: Environment, d: Draws)
    requires ValidDraws(env, d) && VpcSetup(opts, env).stack.Ok?
    ensures CallsOf(ChainTrace(opts, env, d), VpcStackFixture) ==
      [CreateCall(VpcStackFor(opts, env).value)] + (if opts.noDelete then [] else [DeleteAllCall])
  {
    var mk := MungeKeyFor(opts, env, d);
    var vpc := VpcSetup(opts, env);
    var db := DatabaseSetup(opts, env, d);
    var dbd := SlurmDbdSetup(opts, env, d, mk.key.secretArn);
    var c := Assemble(vpc, db, mk, dbd, env.region);
    assert c == SetUpChain(opts, env, d);
    AssembleCallsOf(vpc, db, mk, dbd, env.region, VpcStackFixture);
    CallsOfConcat(c.setupEvents, Unwind(c.pending, opts.noDelete), VpcStackFixture);
    UnwindCallsOf(c.pending, opts.noDelete, VpcStackFixture);
    assert c.pending[0] == Pending(VpcStackFixture, DeleteAllOnTeardown);
  }

  /** What the finalizers record on the factory of fixture `f`: the teardown
      of the one finalizer `f` registered, if any. */
  lemma {:induction false} UnwindCallsOf(ps: seq<Pending>, noDelete: bool, f: FixtureName)
    requires |ps| <= 3 && forall i :: 0 <= i < |ps| ==> ps[i].fixture == ChainOrder[i]
    ensures CallsOf(Unwind(ps, noDelete), f) ==
      if IndexOf(f) < |ps| then TeardownCalls(noDelete, ps[IndexOf(f)].teardown) else []
    decreases |ps|
  {
    if ps != [] {
      var n := |ps| - 1;
      var init := ps[..n];
      assert forall i :: 0 <= i < n ==> init[i] == ps[i];
      UnwindCallsOf(init, noDelete, f);
      UnwindLastCallsOf(ps, noDelete, f);
      assert IndexOf(ps[n].fixture) == n;
      if IndexOf(f) < n {
        assert init[IndexOf(f)] == ps[IndexOf(f)];
      }
    }
  }

  /** The last finalizer runs first: its requests come before those of the rest. */
  lemma UnwindLastCallsOf(ps: seq<Pending>, noDelete: bool, f: FixtureName)
    requires ps != []
    ensures var last := ps[|ps| - 1];
      CallsOf(Unwind(ps, noDelete), f) ==
        (if last.fixture == f then TeardownCalls(noDelete, last.teardown) else []) + CallsOf(Unwind(ps[..|ps| - 1], noDelete), f)
  {
    var last := ps[|ps| - 1];
    var lastCalls := TeardownCalls(noDelete, last.teardown);
    CallsOfConcat(Tagged(last.fixture, lastCalls), Unwind(ps[..|ps| - 1], noDelete), f);
    CallsOfTagged(last.fixture, lastCalls, f);
  }

  /** Where fixture `f` stands in the setup order. */
  function IndexOf(f: FixtureName): (i: nat)
    ensures i < |ChainOrder| && ChainOrder[i] == f
  {
    match f
    case VpcStackFixture => 0
    case DatabaseFixture => 1
    case SlurmDbdFixture => 2
  }

  /** Every request of a run is made during the setup phase or is the
      deletion of a finalizer. */
  lemma TraceEvent(opts: Options, env: Environment, d: Draws, e: Event)
    requires ValidDraws(env, d) && e in ChainTrace(opts, env, d)
    ensures e in SetUpChain(opts, env, d).setupEvents || (e.FactoryCall? && IsDeletion(e.call))
  {
    var c := SetUpChain(opts, env, d);
    UnwindOnlyDeletes(c.pending, opts.noDelete);
  }

  /** A borrowed `database` stack is never submitted. */
  lemma BorrowedDatabaseIsNotCreated(opts: Options, env: Environment, d: Draws)
    requires ValidDraws(env, d) && Truthy(opts.slurmDatabaseStackName)
    ensures forall e :: e in ChainTrace(opts, env, d) && e.FactoryCall? && e.fixture == DatabaseFixture ==>
      !e.call.CreateCall?
  {
    var mk := MungeKeyFor(opts, env, d);
    var vpc := VpcSetup(opts, env);
    var db := DatabaseSetup(opts, env, d);
    var dbd := SlurmDbdSetup(opts, env, d, mk.key.secretArn);
    assert db.calls == [];
    forall e | e in ChainTrace(opts, env, d) && e.FactoryCall? && e.fixture == DatabaseFixture
      ensures !e.call.CreateCall?
    {
      TraceEvent(opts, env, d, e);
      if e in Assemble(vpc, db, mk, dbd, env.region).setupEvents {
        AssembleEvents(vpc, db, mk, dbd, env.region, e);
      }
    }
  }

  /** A borrowed `slurm_dbd` stack is never submitted. */
  lemma BorrowedSlurmDbdIsNotCreated(opts: Options, env: Environment, d: Draws)
    requires ValidDraws(env, d) && Truthy(opts.slurmDbdStackName)
    ensures forall e :: e in ChainTrace(opts, env, d) && e.FactoryCall? && e.fixture == SlurmDbdFixture ==>
      !e.call.CreateCall?
  {
    var mk := MungeKeyFor(opts, env, d);
    var vpc := VpcSetup(opts, env);
    var db := DatabaseSetup(opts, env, d);
    var dbd := SlurmDbdSetup(opts, env, d, mk.key.secretArn);
    assert dbd.calls == [];
    forall e | e in ChainTrace(opts, env, d) && e.FactoryCall? && e.fixture == SlurmDbdFixture
      ensures !e.call.CreateCall?
    {
      TraceEvent(opts, env, d, e);
      if e in Assemble(vpc, db, mk, dbd, env.region).setupEvents {
        AssembleEvents(vpc, db, mk, dbd, env.region, e);
      }
    }
  }

  /** A borrowed munge key stores no secret. */
  lemma BorrowedMungeKeyIsNotStored(opts: Options, env: Environment, d: Draws)
    requires ValidDraws(env, d) && Truthy(opts.mungeKeySecretArn)
    ensures forall e :: e in ChainTrace(opts, env, d) ==> !e.SecretStored?
  {
    var mk := MungeKeyFor(opts, env, d);
    var vpc := VpcSetup(opts, env);
    var db := DatabaseSetup(opts, env, d);
    var dbd := SlurmDbdSetup(opts, env, d, mk.key.secretArn);
    forall e | e in ChainTrace(opts, env, d)
      ensures !e.SecretStored?
    {
      TraceEvent(opts, env, d, e);
      if e in Assemble(vpc, db, mk, dbd, env.region).setupEvents {
        AssembleEvents(vpc, db, mk, dbd, env.region, e);
      }
    }
  }

  /** The `slurm_dbd` stack, when created, receives the ARN `munge_key`
      yields: the borrowed ARN, or that of the secret just stored. */
  lemma MungeKeyReachesSlurmDbd(opts: Options, env: Environment, d: Draws)
    requires ValidDraws(env, d)
    ensures forall e :: (e in ChainTrace(opts, env, d) && e.FactoryCall? && e.fixture == SlurmDbdFixture
                         && e.call.CreateCall?) ==>
      e.call.stack.CfnStack? && Lookup(e.call.stack.parameters, "MungeKeySecretArn") ==
        Some(if Truthy(opts.mungeKeySecretArn) then opts.mungeKeySecretArn.value else env.storedArn)
  {
    var mk := MungeKeyFor(opts, env, d);
    var vpc := VpcSetup(opts, env);
    var db := DatabaseSetup(opts, env, d);
    var dbd := SlurmDbdSetup(opts, env, d, mk.key.secretArn);
    SlurmDbdCreateCarries(opts, env, d, mk.key.secretArn);
    forall e | e in ChainTrace(opts, env, d) && e.FactoryCall? && e.fixture == SlurmDbdFixture && e.call.CreateCall?
      ensures e.call.stack.CfnStack? && Lookup(e.call.stack.parameters, "MungeKeySecretArn") == Some(mk.key.secretArn)
    {
      TraceEvent(opts, env, d, e);
      AssembleEvents(vpc, db, mk, dbd, env.region, e);
    }
  }

  /** The secret the run stores is the Base64 text of the random key, in the
      run's region. */
  lemma StoredSecretIsTheKey(opts: Options, env: Environment, d: Draws)
    requires ValidDraws(env, d)
    ensures forall e :: e in ChainTrace(opts, env, d) && e.SecretStored? ==>
      && e.put.region == env.region && e.put.secretString == Base64.Encode(d.randomKey)
      && Base64.Decode(e.put.secretString) == Some(d.randomKey)
  {
    var mk := MungeKeyFor(opts, env, d);
    var vpc := VpcSetup(opts, env);
    var db := DatabaseSetup(opts, env, d);
    var dbd := SlurmDbdSetup(opts, env, d, mk.key.secretArn);
    forall e | e in ChainTrace(opts, env, d) && e.SecretStored?
      ensures && e.put.region == env.region && e.put.secretString == Base64.Encode(d.randomKey)
              && Base64.Decode(e.put.secretString) == Some(d.randomKey)
    {
      TraceEvent(opts, env, d, e);
      AssembleEvents(vpc, db, mk, dbd, env.region, e);
    }
  }
}
