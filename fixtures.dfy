/** The four fixtures of the Slurm-accounting chain, each split at its
    `yield` into a setup and a teardown.  Every fixture that talks to
    CloudFormation builds its own `CfnStacksFactory`; the factory is the only
    state, and what each setup and teardown does to it is specified by a pure
    function of the options, the environment and the random draws. */
module Fixtures {
  import opened Wrappers
  import opened Text
  import opened Ipv4
  import opened Errors
  import opened Stacks
  import opened Credentials
  import opened Topology
  import opened Parameters

  /** The command-line options the fixtures read with `getoption`. */
  datatype Options = Options(
    credential: Option<string>,
    stacknameSuffix: Option<string>,
    noDelete: bool,
    slurmDatabaseStackName: Option<string>,
    slurmDbdStackName: Option<string>,
    customAmi: Option<string>,
    keyName: string,
    customChefCookbook: Option<string>,
    mungeKeySecretArn: Option<string>)

  /** Everything the fixtures obtain from code or services outside this file:
      helper functions, the CIDR tables, template files, stack outputs, the
      subnet description, the latest AMI, the ARN the secret store answers,
      and whether the provider brings each stack up. */
  datatype Environment = Environment(
    region: string,
    generateStackName: (string, Option<string>) -> string,   // `generate_stack_name`
    subnetName: (string, string) -> string,                  // `subnet_name(visibility, az_id)`
    buildTemplate: (VpcConfig, string) -> string,            // `NetworkTemplateBuilder(...).build().to_json()`
    defaultAzId: string,
    defaultAzName: string,
    publicCidrs: seq<string>,                                // `CIDR_FOR_PUBLIC_SUBNETS`
    privateCidrs: seq<string>,                               // `CIDR_FOR_PRIVATE_SUBNETS`
    customCidrs: seq<string>,                                // `CIDR_FOR_CUSTOM_SUBNETS`
    vpcOutputs: map<string, string>,
    databaseTemplate: string,
    databaseOutputs: map<string, string>,
    storedArn: string,
    latestAmi: string,
    publicSubnetId: string,
    subnet: SubnetDescription,
    slurmDbdTemplate: string,
    vpcCreated: bool,
    databaseCreated: bool,
    slurmDbdCreated: bool)

  /** The random draws, each within the range its generator guarantees. */
  datatype Draws = Draws(
    passwordUpper: string,
    passwordSpecials: string,
    passwordDigits: string,
    passwordLower: string,
    clusterSuffix: string,
    keyLength: int,
    randomKey: seq<Base64.byte>,
    ipIndex: nat)

  predicate ValidDraws(env: Environment, d: Draws) {
    && |d.passwordUpper| == 6 && AllUpper(d.passwordUpper)
    && |d.passwordSpecials| == 4 && AllSpecial(d.passwordSpecials)
    && |d.passwordDigits| == 4 && AllDigits(d.passwordDigits)
    && |d.passwordLower| == 6 && AllLower(d.passwordLower)
    && |d.clusterSuffix| == 6 && AllLowerAlnum(d.clusterSuffix)
    && 32 <= d.keyLength < 1024 && |d.randomKey| == d.keyLength
    && ValidIpDraw(env.subnet, d.ipIndex)
  }

  const VpcStackBaseName: string := "integ-tests-vpc-database"
  const DatabaseStackBaseName: string := "integ-tests-slurm-db"
  const SlurmDbdStackBaseName: string := "integ-tests-slurm-dbd"
  const DatabaseCapabilities: seq<string> := ["CAPABILITY_AUTO_EXPAND"]
  const SlurmDbdCapabilities: seq<string> := ["CAPABILITY_AUTO_EXPAND", "CAPABILITY_NAMED_IAM"]

  /** `CfnStack(name=..., region=region, template=None)`: a reference to a
      stack that already exists. */
  function BorrowedStack(name: string, region: string): (s: Stack)
    ensures s.CfnStack? && s.name == name && s.region == region
    ensures s.template.None? && s.parameters == [] && s.capabilities == []
  {
    CfnStack(name, region, None, [], [])
  }

  /** The calls a setup made on its factory, and what it yields or raises. */
  datatype Setup = Setup(calls: seq<Call>, stack: Result<Stack, Error>)

  /** A setup that submitted `stack`: it yields the stack when the provider
      brings it up and raises otherwise. */
  function Created(stack: Stack, providerOk: bool): (s: Setup)
    ensures s.calls == [CreateCall(stack)]
    ensures s.stack.Ok? <==> providerOk
    ensures s.stack.Ok? ==> s.stack.value == stack
    ensures s.stack.Err? ==> s.stack.error == ProvisioningError(stack.name)
  {
    Setup([CreateCall(stack)], if providerOk then Ok(stack) else Err(ProvisioningError(stack.name)))
  }

  // ---------------------------------------------------------------- VPC

  /** The VPC layout of `vpc_stack_for_database`: the first public and the
      first private CIDR, both subnets in the default zone. */
  function VpcConfigFor(env: Environment): (r: Result<VpcConfig, Error>)
    ensures r.Ok? <==> |env.publicCidrs| > 0 && |env.privateCidrs| > 0
    ensures r.Err? ==> r.error == IndexError
    ensures r.Ok? ==>
      && r.value.cidr == DatabaseVpcCidr && r.value.additionalCidrBlocks == [DatabaseVpcAdditionalCidr]
      && |r.value.subnets| == 2
      && IsPublicSubnet(r.value.subnets[0]) && IsPrivateSubnet(r.value.subnets[1])
      && r.value.subnets[0].cidr == env.publicCidrs[0] && r.value.subnets[1].cidr == env.privateCidrs[0]
      && r.value.subnets[0].name == env.subnetName("Public", env.defaultAzId)
      && r.value.subnets[1].name == env.subnetName("Private", env.defaultAzId)
      && r.value.subnets[0].availabilityZone == env.defaultAzName
      && r.value.subnets[1].availabilityZone == env.defaultAzName
  {
    if |env.publicCidrs| == 0 || |env.privateCidrs| == 0 then Err(IndexError)
    else
      Ok(DatabaseVpcConfig(env.subnetName("Public", env.defaultAzId), env.subnetName("Private", env.defaultAzId),
                           env.publicCidrs[0], env.privateCidrs[0], env.defaultAzName))
  }

  /** The VPC stack that `_create_stack` submits: single-zone, in the
      default zone, with the template built from that layout. */
  function VpcStackFor(opts: Options, env: Environment): (r: Result<Stack, Error>)
    ensures r.Ok? <==> VpcConfigFor(env).Ok?
    ensures r.Err? ==> r.error == IndexError
    ensures r.Ok? ==>
      && r.value.CfnVpcStack?
      && r.value.name == env.generateStackName(VpcStackBaseName, opts.stacknameSuffix)
      && r.value.region == env.region
      && r.value.template == Some(env.buildTemplate(VpcConfigFor(env).value, env.defaultAzName))
      && r.value.defaultAzId == env.defaultAzId && r.value.azIds == [env.defaultAzId]
  {
    var config :- VpcConfigFor(env);
    Ok(CfnVpcStack(env.generateStackName(VpcStackBaseName, opts.stacknameSuffix), env.region,
                   Some(env.buildTemplate(config, env.defaultAzName)), env.defaultAzId, [env.defaultAzId]))
  }

  /** `vpc_stack_for_database` up to its `yield`: the VPC is always created,
      never borrowed. */
  function VpcSetup(opts: Options, env: Environment): (s: Setup)
    ensures s.stack.Ok? <==> VpcStackFor(opts, env).Ok? && env.vpcCreated
    ensures VpcStackFor(opts, env).Err? ==> s == Setup([], Err(IndexError))
    ensures VpcStackFor(opts, env).Ok? ==> s.calls == [CreateCall(VpcStackFor(opts, env).value)]
    ensures VpcStackFor(opts, env).Ok? ==> s == Created(VpcStackFor(opts, env).value, env.vpcCreated)
    ensures s.stack.Ok? ==> s.stack.value == VpcStackFor(opts, env).value
  {
    match VpcStackFor(opts, env)
    case Err(e) => Setup([], Err(e))
    case Ok(stack) => Created(stack, env.vpcCreated)
  }

  method SetUpVpc(opts: Options, env: Environment) returns (factory: StackFactory, r: Result<Stack, Error>)
    ensures fresh(factory) && factory.credential == opts.credential
    ensures factory.calls == VpcSetup(opts, env).calls && r == VpcSetup(opts, env).stack
  {
    factory := new StackFactory(opts.credential);
    if |env.publicCidrs| == 0 || |env.privateCidrs| == 0 {
      return factory, Err(IndexError);
    }
    var publicSubnet := SubnetConfig(env.subnetName("Public", env.defaultAzId), env.publicCidrs[0], true, true,
                                     env.defaultAzName, InternetGateway);
    var privateSubnet := SubnetConfig(env.subnetName("Private", env.defaultAzId), env.privateCidrs[0], false, false,
                                      env.defaultAzName, NatGateway);
    var config := VpcConfig(DatabaseVpcCidr, [DatabaseVpcAdditionalCidr], [publicSubnet, privateSubnet]);
    var template := env.buildTemplate(config, env.defaultAzName);
    var stack := CfnVpcStack(env.generateStackName(VpcStackBaseName, opts.stacknameSuffix), env.region,
                             Some(template), env.defaultAzId, [env.defaultAzId]);
    var created := factory.CreateStack(stack, env.vpcCreated);
    r := if created.Ok? then Ok(stack) else Err(created.error);
  }

  // ----------------------------------------------------------- database

  /** The stack `_create_database_stack` submits, or the exception raised
      while building its parameters. */
  function DatabaseStackFor(opts: Options, env: Environment, d: Draws): (r: Result<Stack, Error>)
    requires ValidDraws(env, d)
    ensures r.Ok? <==> "VpcId" in env.vpcOutputs && |env.customCidrs| >= 2
    ensures r.Err? ==> r.error == if "VpcId" !in env.vpcOutputs then KeyError("VpcId") else IndexError
    ensures r.Ok? ==>
      && r.value.CfnStack?
      && r.value.name == env.generateStackName(DatabaseStackBaseName, opts.stacknameSuffix)
      && r.value.region == env.region
      && r.value.template == Some(env.databaseTemplate)
      && r.value.capabilities == DatabaseCapabilities
      && Keys(r.value.parameters) == DatabaseParameterKeys
  {
    var password := AdminPassword(d.passwordUpper, d.passwordSpecials, d.passwordDigits, d.passwordLower);
    var clusterName := ClusterName(d.clusterSuffix);
    var parameters :- DatabaseParameters(clusterName, env.vpcOutputs, password, env.customCidrs);
    Ok(CfnStack(env.generateStackName(DatabaseStackBaseName, opts.stacknameSuffix), env.region,
                Some(env.databaseTemplate), parameters, DatabaseCapabilities))
  }

  /** What the created database stack receives: the VPC id and the last two
      custom CIDRs verbatim, a password of the fixed layout and a cluster name
      of the fixed shape. */
  lemma DatabaseStackParameterValues(opts: Options, env: Environment, d: Draws)
    requires ValidDraws(env, d) && DatabaseStackFor(opts, env, d).Ok?
    ensures var ps := DatabaseStackFor(opts, env, d).value.parameters;
      && Lookup(ps, "Vpc") == Some(env.vpcOutputs["VpcId"])
      && Lookup(ps, "Subnet1CidrBlock") == Some(env.customCidrs[|env.customCidrs| - 1])
      && Lookup(ps, "Subnet2CidrBlock") == Some(env.customCidrs[|env.customCidrs| - 2])
      && Lookup(ps, "AdminPasswordSecretString").Some?
      && PasswordLayout(Lookup(ps, "AdminPasswordSecretString").value)
      && Lookup(ps, "ClusterName").Some?
      && IsClusterName(Lookup(ps, "ClusterName").value)
  {
    var password := AdminPassword(d.passwordUpper, d.passwordSpecials, d.passwordDigits, d.passwordLower);
    var clusterName := ClusterName(d.clusterSuffix);
    assert DatabaseStackFor(opts, env, d).value.parameters
      == DatabaseParameters(clusterName, env.vpcOutputs, password, env.customCidrs).value;
    DatabaseParameterValues(clusterName, env.vpcOutputs, password, env.customCidrs);
  }

  /** The name of the stack `database` yields: the borrowed one, or the
      generated one. */
  function DatabaseStackName(opts: Options, env: Environment): string {
    if Truthy(opts.slurmDatabaseStackName) then opts.slurmDatabaseStackName.value
    else env.generateStackName(DatabaseStackBaseName, opts.stacknameSuffix)
  }

  /** The name of the stack `slurm_dbd` yields: the borrowed one, or the
      generated one. */
  function SlurmDbdStackName(opts: Options, env: Environment): string {
    if Truthy(opts.slurmDbdStackName) then opts.slurmDbdStackName.value
    else env.generateStackName(SlurmDbdStackBaseName, opts.stacknameSuffix)
  }

  /** `database` up to its `yield`: borrow the named stack, or create one. */
  function DatabaseSetup(opts: Options, env: Environment, d: Draws): (s: Setup)
    requires ValidDraws(env, d)
    ensures Truthy(opts.slurmDatabaseStackName) ==>
      s == Setup([], Ok(BorrowedStack(opts.slurmDatabaseStackName.value, env.region)))
    ensures !Truthy(opts.slurmDatabaseStackName) && DatabaseStackFor(opts, env, d).Err? ==>
      s == Setup([], Err(DatabaseStackFor(opts, env, d).error))
    ensures !Truthy(opts.slurmDatabaseStackName) && DatabaseStackFor(opts, env, d).Ok? ==>
      s == Created(DatabaseStackFor(opts, env, d).value, env.databaseCreated)
    ensures s.stack.Ok? ==> s.stack.value.CfnStack? && s.stack.value.name == DatabaseStackName(opts, env)
  {
    if Truthy(opts.slurmDatabaseStackName) then
      Setup([], Ok(BorrowedStack(opts.slurmDatabaseStackName.value, env.region)))
    else
      match DatabaseStackFor(opts, env, d)
      case Err(e) => Setup([], Err(e))
      case Ok(stack) => Created(stack, env.databaseCreated)
  }

  method SetUpDatabase(opts: Options, env: Environment, d: Draws) returns (factory: StackFactory, r: Result<Stack, Error>)
    requires ValidDraws(env, d)
    ensures fresh(factory) && factory.credential == opts.credential
    ensures factory.calls == DatabaseSetup(opts, env, d).calls && r == DatabaseSetup(opts, env, d).stack
  {
    factory := new StackFactory(opts.credential);
    if Truthy(opts.slurmDatabaseStackName) {
      return factory, Ok(BorrowedStack(opts.slurmDatabaseStackName.value, env.region));
    }
    var stack := DatabaseStackFor(opts, env, d);
    if stack.Err? {
      return factory, Err(stack.error);
    }
    var created := factory.CreateStack(stack.value, env.databaseCreated);
    r := if created.Ok? then stack else Err(created.error);
  }

  // ---------------------------------------------------------- slurm_dbd

  /** What `slurm_dbd` gathers before it builds the parameter list; the munge
      key ARN is the second half of what `munge_key` yields. */
  function SlurmDbdInputsFor(opts: Options, env: Environment, d: Draws, mungeKeySecretArn: string): (i: SlurmDbdInputs)
    ensures i.customAmi == opts.customAmi && i.latestAmi == env.latestAmi && i.keyName == opts.keyName
    ensures i.databaseOutputs == env.databaseOutputs && i.mungeKeySecretArn == mungeKeySecretArn
    ensures i.publicSubnetId == env.publicSubnetId && i.subnet == env.subnet && i.ipIndex == d.ipIndex
    ensures i.customCookbookUrl == opts.customChefCookbook
  {
    SlurmDbdInputs(opts.customAmi, env.latestAmi, env.databaseOutputs, opts.keyName, mungeKeySecretArn,
                   env.publicSubnetId, env.subnet, d.ipIndex, opts.customChefCookbook)
  }

  /** The stack `slurm_dbd` submits, or the exception raised while building
      its parameters. */
  function SlurmDbdStackFor(opts: Options, env: Environment, d: Draws, mungeKeySecretArn: string): (r: Result<Stack, Error>)
    requires ValidDraws(env, d)
    ensures r.Ok? <==> SlurmDbdParameterList(SlurmDbdInputsFor(opts, env, d, mungeKeySecretArn)).Ok?
    ensures r.Err? ==> r.error == SlurmDbdParameterList(SlurmDbdInputsFor(opts, env, d, mungeKeySecretArn)).error
    ensures r.Ok? ==>
      && r.value.CfnStack?
      && r.value.name == env.generateStackName(SlurmDbdStackBaseName, opts.stacknameSuffix)
      && r.value.region == env.region
      && r.value.template == Some(env.slurmDbdTemplate)
      && r.value.capabilities == SlurmDbdCapabilities
      && Keys(r.value.parameters) == SlurmDbdKeys(opts.customChefCookbook)
      && Lookup(r.value.parameters, "MungeKeySecretArn") == Some(mungeKeySecretArn)
  {
    var inputs := SlurmDbdInputsFor(opts, env, d, mungeKeySecretArn);
    var parameters :- SlurmDbdParameterList(inputs);
    SlurmDbdParameterValues(inputs);
    Ok(CfnStack(env.generateStackName(SlurmDbdStackBaseName, opts.stacknameSuffix), env.region,
                Some(env.slurmDbdTemplate), parameters, SlurmDbdCapabilities))
  }

  /** `slurm_dbd` up to its `yield`: borrow the named stack, or create one. */
  function SlurmDbdSetup(opts: Options, env: Environment, d: Draws, mungeKeySecretArn: string): (s: Setup)
    requires ValidDraws(env, d)
    ensures Truthy(opts.slurmDbdStackName) ==>
      s == Setup([], Ok(BorrowedStack(opts.slurmDbdStackName.value, env.region)))
    ensures !Truthy(opts.slurmDbdStackName) && SlurmDbdStackFor(opts, env, d, mungeKeySecretArn).Err? ==>
      s == Setup([], Err(SlurmDbdStackFor(opts, env, d, mungeKeySecretArn).error))
    ensures !Truthy(opts.slurmDbdStackName) && SlurmDbdStackFor(opts, env, d, mungeKeySecretArn).Ok? ==>
      s == Created(SlurmDbdStackFor(opts, env, d, mungeKeySecretArn).value, env.slurmDbdCreated)
    ensures s.stack.Ok? ==> s.stack.value.CfnStack? && s.stack.value.name == SlurmDbdStackName(opts, env)
  {
    if Truthy(opts.slurmDbdStackName) then
      Setup([], Ok(BorrowedStack(opts.slurmDbdStackName.value, env.region)))
    else
      match SlurmDbdStackFor(opts, env, d, mungeKeySecretArn)
      case Err(e) => Setup([], Err(e))
      case Ok(stack) => Created(stack, env.slurmDbdCreated)
  }

  method SetUpSlurmDbd(opts: Options, env: Environment, d: Draws, mungeKeySecretArn: string)
    returns (factory: StackFactory, r: Result<Stack, Error>)
    requires ValidDraws(env, d)
    ensures fresh(factory) && factory.credential == opts.credential
    ensures factory.calls == SlurmDbdSetup(opts, env, d, mungeKeySecretArn).calls
    ensures r == SlurmDbdSetup(opts, env, d, mungeKeySecretArn).stack
  {
    factory := new StackFactory(opts.credential);
    if Truthy(opts.slurmDbdStackName) {
      return factory, Ok(BorrowedStack(opts.slurmDbdStackName.value, env.region));
    }
    var parameters := SlurmDbdStackParameters(SlurmDbdInputsFor(opts, env, d, mungeKeySecretArn));
    if parameters.Err? {
      return factory, Err(parameters.error);
    }
    var stack := CfnStack(env.generateStackName(SlurmDbdStackBaseName, opts.stacknameSuffix), env.region,
                          Some(env.slurmDbdTemplate), parameters.value, SlurmDbdCapabilities);
    var created := factory.CreateStack(stack, env.slurmDbdCreated);
    r := if created.Ok? then Ok(stack) else Err(created.error);
  }

  // ----------------------------------------------------------- munge_key

  /** `munge_key` for these options and draws (it has no teardown). */
  function MungeKeyFor(opts: Options, env: Environment, d: Draws): (m: MungeKeySetup)
    requires ValidDraws(env, d)
    ensures m.key.secretArn == if Truthy(opts.mungeKeySecretArn) then opts.mungeKeySecretArn.value else env.storedArn
    ensures m.stored.Some? <==> !Truthy(opts.mungeKeySecretArn)
  {
    MungeKeyFixture(opts.mungeKeySecretArn, env.region, d.keyLength, d.randomKey, env.storedArn)
  }

  /** Setups only ever create: each makes at most one request, a create. */
  lemma SetupsOnlyCreate(opts: Options, env: Environment, d: Draws, mungeKeySecretArn: string)
    requires ValidDraws(env, d)
    ensures forall c :: c in VpcSetup(opts, env).calls ==> c.CreateCall?
    ensures forall c :: c in DatabaseSetup(opts, env, d).calls ==> c.CreateCall?
    ensures forall c :: c in SlurmDbdSetup(opts, env, d, mungeKeySecretArn).calls ==> c.CreateCall?
  {
  }

  /** Whatever `slurm_dbd` submits carries the munge key ARN it was given. */
  lemma SlurmDbdCreateCarries(opts: Options, env: Environment, d: Draws, mungeKeySecretArn: string)
    requires ValidDraws(env, d)
    ensures forall c :: c in SlurmDbdSetup(opts, env, d, mungeKeySecretArn).calls ==>
      c.CreateCall? && c.stack.CfnStack? && Lookup(c.stack.parameters, "MungeKeySecretArn") == Some(mungeKeySecretArn)
  {
  }

  // ------------------------------------------------------------ teardown

  /** What a fixture does after its `yield`. */
  datatype Teardown =
    | DeleteAllOnTeardown                              // `vpc_stack_for_database`
    | DeleteOnTeardown(name: string, region: string)  // `database` and `slurm_dbd`

  /** The calls a teardown makes: none under `no_delete`, otherwise exactly
      one deletion. */
  function TeardownCalls(noDelete: bool, t: Teardown): (cs: seq<Call>)
    ensures noDelete ==> cs == []
    ensures !noDelete ==> |cs| == 1 && IsDeletion(cs[0])
    ensures !noDelete && t.DeleteOnTeardown? ==> cs == [DeleteCall(t.name, t.region)]
    ensures !noDelete && t.DeleteAllOnTeardown? ==> cs == [DeleteAllCall]
  {
    if noDelete then []
    else match t
      case DeleteAllOnTeardown => [DeleteAllCall]
      case DeleteOnTeardown(name, region) => [DeleteCall(name, region)]
  }

  /** The teardown a fixture registers once its setup has yielded `stack`:
      the VPC clears its factory, the others delete the yielded stack by
      name, borrowed or not. */
  function TeardownFor(stack: Stack, region: string): (t: Teardown)
    ensures stack.CfnVpcStack? ==> t == DeleteAllOnTeardown
    ensures stack.CfnStack? ==> t == DeleteOnTeardown(stack.name, region)
  {
    if stack.CfnVpcStack? then DeleteAllOnTeardown else DeleteOnTeardown(stack.name, region)
  }

  method TearDown(factory: StackFactory, noDelete: bool, t: Teardown)
    modifies factory
    ensures factory.calls == old(factory.calls) + TeardownCalls(noDelete, t)
  {
    if !noDelete {
      match t
      case DeleteAllOnTeardown => factory.DeleteAllStacks();
      case DeleteOnTeardown(name, region) => factory.DeleteStack(name, region);
    }
  }

  /** A borrowed stack is still deleted at teardown unless `no_delete` is set. */
  lemma BorrowedStackIsDeleted(name: string, region: string, noDelete: bool)
    ensures TeardownCalls(noDelete, TeardownFor(BorrowedStack(name, region), region)) ==
      if noDelete then [] else [DeleteCall(name, region)]
  {
  }
}
