# Slurm-accounting fixture chain

A Dafny model of the fixtures that provision the Slurm accounting
infrastructure for the scheduler integration tests of AWS ParallelCluster
(`tests/integration-tests/tests/schedulers/conftest.py`).

The chain has four fixtures:

- `vpc_stack_for_database` creates a single-zone VPC stack with one public
  and one private subnet.
- `database` creates a serverless database stack, or borrows one by name.
- `munge_key` generates a random munge key and stores it as a secret, or
  borrows an existing secret ARN.
- `slurm_dbd` creates the external slurmdbd stack, or borrows one by name.

Each fixture is split at its `yield` into a setup and a teardown. A setup
that talks to CloudFormation builds its own `CfnStacksFactory`.

How the model is built:

- The factory is modelled as a class that records every create and delete
  request made through it. That log is the only state.
- Each setup is specified by a pure function of three inputs: the command
  line options (`Options`), what outside code and services answer
  (`Environment`) and the random draws (`Draws`). Each draw carries a
  precondition on its alphabet or range.
- Each setup method is proved equal to its function.
- The pytest session is made explicit. The setups run in dependency order,
  and a finalizer is registered after each `yield`. The test body runs only
  when every setup yielded, and the finalizers run last registered first.
  A run is a trace of events: factory requests tagged with their fixture,
  secrets stored, and the test body. `Session.RunChain` is proved to
  produce the trace `Session.ChainTrace`, and the lemmas of `Session` are
  stated about that trace. `Session.RunChain` also returns the factories,
  one per fixture that yielded. Each factory's log is proved to be exactly
  the requests the trace tags with its fixture.

Modules:

- `Wrappers` holds `Option` and `Result`, plus Python truthiness of an
  optional string.
- `Text` holds split, join and decimal text.
- `Errors` holds the exceptions a setup can raise.
- `Ipv4` covers the part of Python's `ipaddress` module that is used:
  strict `IPv4Network` parsing, `list(network)` and `str(address)`.
- `Base64` is the encoder of section 4 of RFC 4648, as `base64.b64encode`
  produces it. It comes with a strict decoder that requires zero pad bits
  (section 3.5). The round trip is proved in both directions.
- `Stacks` holds the stack descriptors, parameter lists and the recording
  factory.
- `Credentials` holds the password, the cluster name and the munge key.
- `Topology` holds the VPC configuration.
- `Parameters` holds the two CloudFormation parameter lists.
- `Fixtures` holds the setups and teardowns.
- `Session` holds the run and its lemmas.

## Design and code

Where the intended design and the code differ, the model follows the code:

- Borrowed `database` and `slurm_dbd` stacks are still deleted by name at
  teardown (conftest.py lines 144-157 and 229-241). There is no separate
  ownership flag, so the model has none. `Fixtures.BorrowedStackIsDeleted`
  states this.
- The slurmdbd private IP is drawn from every address of the subnet,
  including the network and broadcast addresses (lines 184-185).
  `Parameters.PrivateIpEnds` and `Parameters.PrivateIpCoversNetwork` state
  this.
- The munge key length comes from `randrange(32, 1024)`, so it lies in
  32..1023 (line 256).
- A borrowed munge key yields `(None, arn)` and stores nothing.
- The VPC stack is always created; there is no option to borrow it.

## Model

| member | source | states |
|---|---|---|
| Credentials.AdminPassword | tests/integration-tests/tests/schedulers/conftest.py:94-101 | the password has 20 characters: 6 upper-case letters, then 4 of `!$%^()_+`, then 4 digits, then 6 lower-case letters; it therefore holds a character of each class |
| Credentials.PasswordLayoutIsReachable | tests/integration-tests/tests/schedulers/conftest.py:94-101 | every password of that layout comes from some draws, so the layout is exactly the set of possible passwords |
| Credentials.ClusterName | tests/integration-tests/tests/schedulers/conftest.py:103 | the name is `slurm-accounting-` followed by 6 characters from `[a-z0-9]` |
| Credentials.ClusterNameShapeIsReachable | tests/integration-tests/tests/schedulers/conftest.py:103 | every name of that shape is the cluster name of its own suffix |
| Credentials.MungeKeyFixture | tests/integration-tests/tests/schedulers/conftest.py:250-260 | with an ARN option it yields `(None, arn)` and stores nothing; otherwise it stores one secret in the region, yields the stored text with the ARN the store answered, and that text is the Base64 encoding of the 32..1023 random bytes and decodes back to them |
| Base64.Encode | tests/integration-tests/tests/schedulers/conftest.py:258 | the encoding of n bytes has 4 * ceil(n / 3) characters |
| Base64.DecodeEncode | tests/integration-tests/tests/schedulers/conftest.py:258 | decoding the encoded key gives back exactly the random bytes |
| Base64.DecodedIsEncoding | tests/integration-tests/tests/schedulers/conftest.py:258 | any text the decoder accepts is the encoding of what it decodes to: padding only at the end and zero pad bits |
| Base64.DecodeIffEncode | tests/integration-tests/tests/schedulers/conftest.py:258 | a text decodes to given bytes exactly when it is their encoding, so the stored secret has one reading and the key one text |
| Topology.DatabaseVpcConfig | tests/integration-tests/tests/schedulers/conftest.py:49-72 | CIDR 192.168.0.0/17, one additional block 192.168.128.0/17, then a public subnet (public IPs, NAT gateway, internet route) and a private subnet (no public IPs, no NAT gateway, NAT route), in that order, both in the default zone; every NAT route has a NAT gateway, and a subnet gets public IPs exactly when it routes to the internet gateway |
| Topology.ParseDatabaseVpcBlocks | tests/integration-tests/tests/schedulers/conftest.py:66-67 | the two CIDR texts parse to the networks 192.168.0.0/17 and 192.168.128.0/17 |
| Topology.DatabaseVpcBlocks | tests/integration-tests/tests/schedulers/conftest.py:66-67 | the two blocks are disjoint, and an address lies in one of them exactly when it lies in 192.168.0.0/16 |
| Parameters.DatabaseParameters | tests/integration-tests/tests/schedulers/conftest.py:106-112 | the list exists exactly when the VPC outputs hold `VpcId` and at least two custom CIDRs exist; otherwise it is `KeyError("VpcId")` or `IndexError`; its keys are exactly ClusterName, Vpc, AdminPasswordSecretString, Subnet1CidrBlock and Subnet2CidrBlock, in that order and without repeats |
| Parameters.DatabaseParameterValues | tests/integration-tests/tests/schedulers/conftest.py:106-112 | each key maps to its input: the cluster name, `VpcId` verbatim, the password, then the last and the second-to-last custom CIDR |
| Parameters.PrivatePrefix | tests/integration-tests/tests/schedulers/conftest.py:206 | `split("/")[1]` succeeds exactly when the text has a slash, fails with `IndexError` otherwise; on success it is the second slash-separated piece, which has no slash in it |
| Parameters.PrivatePrefixOfFormattedNetwork | tests/integration-tests/tests/schedulers/conftest.py:206 | on the canonical text of a network the prefix is the decimal prefix length |
| Parameters.PrivatePrefixOfParsedNetwork | tests/integration-tests/tests/schedulers/conftest.py:206 | for any text `IPv4Network` accepts: with a slash, the prefix is the whole rest of the text and a decimal prefix is the network's prefix length; without a slash the prefix length is 32 and the lookup raises `IndexError` |
| Parameters.PrivateIp | tests/integration-tests/tests/schedulers/conftest.py:184-185 | the chosen IP is address text that parses back to an address of the subnet's network |
| Parameters.PrivateIpCoversNetwork | tests/integration-tests/tests/schedulers/conftest.py:184-185 | every address of the network is chosen by some draw |
| Parameters.PrivateIpEnds | tests/integration-tests/tests/schedulers/conftest.py:184-185 | the first draw gives the network address and the last draw gives the broadcast address |
| Parameters.FirstMissing | tests/integration-tests/tests/schedulers/conftest.py:197-201 | the `KeyError` raised names the first database output read that is missing, and none is raised exactly when all four are present |
| Parameters.AmiId | tests/integration-tests/tests/schedulers/conftest.py:193-195 | the custom AMI when that option is truthy, the latest AMI otherwise |
| Parameters.FixedSlurmDbdParameters | tests/integration-tests/tests/schedulers/conftest.py:190-211 | the fifteen entries carry the fixed keys in the order written |
| Parameters.WithCookbook | tests/integration-tests/tests/schedulers/conftest.py:212-214 | the fixed list is kept as it is, and one `CustomCookbookUrl` entry with the option's value is appended exactly when the option is truthy |
| Parameters.SlurmDbdParameterList | tests/integration-tests/tests/schedulers/conftest.py:182-214 | errors come in evaluation order: `ValueError` from `IPv4Network`, then `KeyError` for a missing database output, then `IndexError` from the prefix when the text parses (as a /32) but has no slash; the list exists exactly when none occurs; its keys are the 15 fixed keys in order, plus `CustomCookbookUrl` last exactly when that option is truthy, without repeats |
| Parameters.SlurmDbdParameterValues | tests/integration-tests/tests/schedulers/conftest.py:190-214 | AmiId is the custom AMI when set, else the latest; the four DBMS entries are the database outputs verbatim; DBMSDatabaseName is `slurm_database`, InstanceType `c5.large`, SlurmdbdPort `6819` and EnableSlurmdbdSystemService `true`; KeyName, MungeKeySecretArn, PrivateIp, PrivatePrefix, SubnetId and VPCId are their inputs; the cookbook URL is found exactly when the option is truthy |
| Parameters.SlurmDbdStackParameters | tests/integration-tests/tests/schedulers/conftest.py:190-214 | building the list step by step, with the conditional in-place append, gives the same list or error as `SlurmDbdParameterList` |
| Ipv4.ParseNetwork | tests/integration-tests/tests/schedulers/conftest.py:184 | an accepted network has prefix length at most 32 and no host bits set |
| Ipv4.ParseFormatNetwork | tests/integration-tests/tests/schedulers/conftest.py:184 | parsing `str(network)` gives the network back |
| Ipv4.ParseOctetIsCanonical | tests/integration-tests/tests/schedulers/conftest.py:184 | an octet is accepted exactly when it is the decimal text of a value below 256 |
| Ipv4.ParseFormatAddress | tests/integration-tests/tests/schedulers/conftest.py:185 | parsing `str(address)` gives the address back |
| Ipv4.AddressesAreTheNetwork | tests/integration-tests/tests/schedulers/conftest.py:185 | `list(network)` holds exactly the addresses in the network |
| Ipv4.AddressesEnds | tests/integration-tests/tests/schedulers/conftest.py:185 | `list(network)` starts at the network address and ends at the broadcast address |
| Stacks.LookupDistinct | tests/integration-tests/tests/schedulers/conftest.py:106-112 | in a parameter list without repeated keys, every entry is the one found for its key |
| Stacks.StackFactory.constructor | tests/integration-tests/tests/schedulers/conftest.py:33 | a new factory has the given credential and an empty log |
| Stacks.StackFactory.CreateStack | tests/integration-tests/tests/schedulers/conftest.py:43 | appends one create request and succeeds exactly when the provider brings the stack up |
| Stacks.StackFactory.DeleteStack | tests/integration-tests/tests/schedulers/conftest.py:157 | appends one `delete_stack(name, region)` request |
| Stacks.StackFactory.DeleteAllStacks | tests/integration-tests/tests/schedulers/conftest.py:82 | appends one `delete_all_stacks()` request |
| Fixtures.VpcConfigFor | tests/integration-tests/tests/schedulers/conftest.py:47-72 | the layout uses the first public and first private CIDR and the subnet names for the default zone id, and is `IndexError` exactly when either CIDR list is empty |
| Fixtures.VpcStackFor | tests/integration-tests/tests/schedulers/conftest.py:35-44 | a `CfnVpcStack` with the generated name, the region, the built template, and the default zone as its only zone |
| Fixtures.VpcSetup | tests/integration-tests/tests/schedulers/conftest.py:35-79 | the VPC setup makes exactly one create request and yields that stack exactly when the provider brings it up, otherwise raises the provisioning error naming the stack; when a CIDR list is empty it raises `IndexError` before any request |
| Fixtures.SetUpVpc | tests/integration-tests/tests/schedulers/conftest.py:31-79 | a fresh factory with the credential option, whose log and result are those of `VpcSetup` |
| Fixtures.DatabaseStackFor | tests/integration-tests/tests/schedulers/conftest.py:87-123 | the database stack has the generated name, the region, the template, `CAPABILITY_AUTO_EXPAND` and the five keys; it is `KeyError("VpcId")` or `IndexError` exactly when a parameter cannot be built |
| Fixtures.DatabaseStackParameterValues | tests/integration-tests/tests/schedulers/conftest.py:94-112 | the submitted stack carries `VpcId` and the last two custom CIDRs verbatim, a password of the fixed layout and a cluster name of the fixed shape |
| Fixtures.BorrowedStack | tests/integration-tests/tests/schedulers/conftest.py:135 | the stack a stack-name option points to (also line 170) is a `CfnStack` of that name in the region, with no template, parameters or capabilities |
| Fixtures.DatabaseSetup | tests/integration-tests/tests/schedulers/conftest.py:126-142 | with a stack-name option it makes no request and yields a template-less stack of that name; otherwise it creates the stack or raises; whatever it yields is named `DatabaseStackName` |
| Fixtures.SetUpDatabase | tests/integration-tests/tests/schedulers/conftest.py:126-142 | a fresh factory of its own, whose log and result are those of `DatabaseSetup` |
| Fixtures.SlurmDbdInputsFor | tests/integration-tests/tests/schedulers/conftest.py:181-212 | the parameter inputs are the `custom_ami`, `key_name` and `custom_chef_cookbook` options, the latest AMI, the database outputs, the public subnet and its description, the address draw and the ARN `munge_key` yielded |
| Fixtures.SlurmDbdStackFor | tests/integration-tests/tests/schedulers/conftest.py:174-222 | the slurmdbd stack has the generated name, the region, the template, both capabilities, the slurmdbd keys and the munge key ARN it was given; it fails exactly when the parameter list does |
| Fixtures.SlurmDbdSetup | tests/integration-tests/tests/schedulers/conftest.py:160-227 | with a stack-name option it makes no request and yields a template-less stack of that name; otherwise it creates the stack or raises; whatever it yields is named `SlurmDbdStackName` |
| Fixtures.SetUpSlurmDbd | tests/integration-tests/tests/schedulers/conftest.py:160-227 | a fresh factory of its own, whose log and result are those of `SlurmDbdSetup` |
| Fixtures.MungeKeyFor | tests/integration-tests/tests/schedulers/conftest.py:249-260 | the yielded ARN is the borrowed one or the one the store answered, and a secret is stored exactly when none is borrowed |
| Fixtures.SlurmDbdCreateCarries | tests/integration-tests/tests/schedulers/conftest.py:186-204 | every request `slurm_dbd` makes is a create whose parameters carry the munge key ARN |
| Fixtures.TeardownCalls | tests/integration-tests/tests/schedulers/conftest.py:144-157 | no request under `no_delete`; otherwise exactly one deletion, `delete_stack(name, region)` or `delete_all_stacks()` |
| Fixtures.TeardownFor | tests/integration-tests/tests/schedulers/conftest.py:229-241 | the VPC fixture clears its factory; the other fixtures delete the yielded stack by its name |
| Fixtures.TearDown | tests/integration-tests/tests/schedulers/conftest.py:229-241 | the teardown appends exactly `TeardownCalls` to its fixture's factory |
| Fixtures.BorrowedStackIsDeleted | tests/integration-tests/tests/schedulers/conftest.py:144-157 | a borrowed stack is still deleted by name unless `no_delete` is set |
| Session.Assemble | tests/integration-tests/tests/schedulers/conftest.py:161 | the test runs exactly when all three stacks yielded; one finalizer is registered per setup that yielded, in setup order |
| Session.SetUpAll | tests/integration-tests/tests/schedulers/conftest.py:127 | the setup phase produces the events and finalizers of `SetUpChain`; each finalizer has a fresh factory of its own, distinct from the others, whose log is exactly the requests the trace tags with that finalizer's fixture |
| Session.SetUpFromDatabase | tests/integration-tests/tests/schedulers/conftest.py:126-227 | the setups after the VPC produce the events and finalizers of `AssembleFromDatabase`, with one fresh, distinct factory per finalizer holding exactly that fixture's requests, and nothing tagged with the VPC fixture |
| Session.TearDownAll | tests/integration-tests/tests/schedulers/conftest.py:161 | popping the finalizer stack produces `Unwind`, the last registered teardown first, and appends to each factory exactly the teardown requests of its own finalizer |
| Session.RunChain | tests/integration-tests/tests/schedulers/conftest.py:161 | a whole run produces `ChainTrace`; each fixture that yielded ends with a factory of its own whose log is exactly the requests the trace tags with that fixture, so the lemmas below about that trace are about the factories' logs |
| Session.UnwindReverses | tests/integration-tests/tests/schedulers/conftest.py:161 | without `no_delete`, each finalizer makes exactly one deletion on its own fixture's factory, in reverse order |
| Session.TestRunsIffChainCompletes | tests/integration-tests/tests/schedulers/conftest.py:161 | the test body runs exactly when every setup yielded |
| Session.NoDeleteDeletesNothing | tests/integration-tests/tests/schedulers/conftest.py:81-84 | with `--no-delete` a run makes no deletion and its trace is the setup phase alone |
| Session.CompletedChainTearsDownInReverse | tests/integration-tests/tests/schedulers/conftest.py:229-241 | a completed run without `--no-delete` ends with these requests, in order: delete the slurmdbd stack by name, delete the database stack by name, clear the VPC factory |
| Session.FailedSetupUnwindsWhatYielded | tests/integration-tests/tests/schedulers/conftest.py:161 | a run that stops at a failed setup skips the test and deletes, in reverse order, only what the fixtures before it yielded |
| Session.VpcFactoryHoldsOnlyTheVpc | tests/integration-tests/tests/schedulers/conftest.py:33-82 | the VPC fixture's factory records only the VPC create and, without `--no-delete`, one `delete_all_stacks()`, so clearing it touches no other stack |
| Session.UnwindCallsOf | tests/integration-tests/tests/schedulers/conftest.py:128-162 | the finalizers record on each fixture's factory only that fixture's own teardown requests |
| Session.BorrowedDatabaseIsNotCreated | tests/integration-tests/tests/schedulers/conftest.py:133-135 | with a database stack-name option, no create is made on the database factory in the whole run |
| Session.BorrowedSlurmDbdIsNotCreated | tests/integration-tests/tests/schedulers/conftest.py:167-170 | with a slurmdbd stack-name option, no create is made on the slurmdbd factory in the whole run |
| Session.BorrowedMungeKeyIsNotStored | tests/integration-tests/tests/schedulers/conftest.py:252-254 | with a munge key ARN option, no secret is stored in the whole run |
| Session.MungeKeyReachesSlurmDbd | tests/integration-tests/tests/schedulers/conftest.py:186-204 | a created slurmdbd stack carries the ARN `munge_key` yielded: the borrowed one, or that of the secret just stored |
| Session.StoredSecretIsTheKey | tests/integration-tests/tests/schedulers/conftest.py:256-259 | a secret the run stores is put in the run's region, is the Base64 encoding of the random key bytes and decodes back to them |

## Left out

- The AWS clients are inputs of `Environment`, not calls. This covers
  `describe_subnets` (line 182), the secret store (line 259),
  `retrieve_latest_ami` (line 194) and `get_az_setup_for_region` (line 47).
  Exceptions raised inside them are not modelled.
- The stack outputs (`cfn_outputs`) are inputs, and so is
  `get_public_subnet()`. Whether the outputs of a borrowed, template-less
  stack can be fetched depends on `CfnStack`, which is not part of this
  model.
- The internals of `CfnStacksFactory`, `CfnStack` and `CfnVpcStack` are not
  modelled: provider polling, cleanup after a failed creation and the
  effect of a delete on the cloud. A creation is one request that the
  provider accepts or rejects (`ProvisioningError`). Defaults of `CfnStack`
  not shown are taken as empty parameter and capability lists.
- `NetworkTemplateBuilder.build()`, `generate_stack_name` and `subnet_name`
  are not modelled. They are total functions in `Environment`, so the
  template content is not modelled.
- Template files are not read (lines 105 and 188). Their contents are
  inputs.
- Logging is not modelled. The `test_resources_dir` fixture (lines 244-246)
  is trivial and not part of the chain.
- Every random draw (`random.choices`, `random.choice`,
  `random.randrange`, `os.urandom`) is a field of `Draws`, with its range
  as a precondition.
- pytest's fixture injection and scope caching are not modelled. The run
  models one test class that requests `slurm_dbd`.
- `munge_key` has no code after its `yield`, so it registers no finalizer
  in the model.
- The `store_secret_in_secret_manager` fixture, and any teardown of its
  own, is not part of this model.
- Exceptions raised inside a teardown, and how pytest then carries on with
  the other finalizers, are not modelled. A failure to store the secret is
  not modelled either.
- `Fixtures.Options`: the `key_name` option is a string; the `None` it can
  be is not represented.
- `Ipv4.ParseNetwork`: only text input is modelled, not integers, bytes or
  tuples. The parser follows the module's current rules: leading zeros in
  octets are rejected, a netmask or hostmask after the slash is accepted,
  and host bits must be clear.
