/** The CloudFormation parameter lists of the database stack and of the
    slurmdbd stack, and the private address and prefix the latter carries. */
module Parameters {
  import opened Wrappers
  import opened Text
  import opened Ipv4
  import opened Errors
  import opened Stacks

  const DatabaseParameterKeys: seq<string> :=
    ["ClusterName", "Vpc", "AdminPasswordSecretString", "Subnet1CidrBlock", "Subnet2CidrBlock"]

  /** The parameters of the database stack. `vpcOutputs` are the outputs of
      the VPC stack and `customSubnetCidrs` is the list of CIDRs reserved for
      custom subnets; the last two of these become the database subnets. */
  function DatabaseParameters(clusterName: string, vpcOutputs: map<string, string>, adminPassword: string,
                              customSubnetCidrs: seq<string>): (r: Result<seq<Parameter>, Error>)
    ensures r.Ok? <==> "VpcId" in vpcOutputs && |customSubnetCidrs| >= 2
    ensures "VpcId" !in vpcOutputs ==> r == Err(KeyError("VpcId"))
    ensures "VpcId" in vpcOutputs && |customSubnetCidrs| < 2 ==> r == Err(IndexError)
    ensures r.Ok? ==> Keys(r.value) == DatabaseParameterKeys && DistinctKeys(r.value)
  {
    if "VpcId" !in vpcOutputs then Err(KeyError("VpcId"))
    else if |customSubnetCidrs| < 2 then Err(IndexError)
    else
      var n := |customSubnetCidrs|;
      var ps := [
        Parameter("ClusterName", clusterName),
        Parameter("Vpc", vpcOutputs["VpcId"]),
        Parameter("AdminPasswordSecretString", adminPassword),
        Parameter("Subnet1CidrBlock", customSubnetCidrs[n - 1]),
        Parameter("Subnet2CidrBlock", customSubnetCidrs[n - 2])
      ];
      assert Keys(ps) == DatabaseParameterKeys;
      Ok(ps)
  }

  /** What the database stack receives under each key. */
  lemma DatabaseParameterValues(clusterName: string, vpcOutputs: map<string, string>, adminPassword: string,
                                customSubnetCidrs: seq<string>)
    requires "VpcId" in vpcOutputs && |customSubnetCidrs| >= 2
    ensures var ps := DatabaseParameters(clusterName, vpcOutputs, adminPassword, customSubnetCidrs).value;
      && Lookup(ps, "ClusterName") == Some(clusterName)
      && Lookup(ps, "Vpc") == Some(vpcOutputs["VpcId"])
      && Lookup(ps, "AdminPasswordSecretString") == Some(adminPassword)
      && Lookup(ps, "Subnet1CidrBlock") == Some(customSubnetCidrs[|customSubnetCidrs| - 1])
      && Lookup(ps, "Subnet2CidrBlock") == Some(customSubnetCidrs[|customSubnetCidrs| - 2])
  {
    var ps := DatabaseParameters(clusterName, vpcOutputs, adminPassword, customSubnetCidrs).value;
    LookupDistinct(ps, 0);
    LookupDistinct(ps, 1);
    LookupDistinct(ps, 2);
    LookupDistinct(ps, 3);
    LookupDistinct(ps, 4);
  }

  /** `cidr.split("/")[1]`: the text after the first slash, up to a second
      one; `IndexError` when there is no slash. */
  function PrivatePrefix(cidrBlock: string): (r: Result<string, Error>)
    ensures r.Ok? <==> '/' in cidrBlock
    ensures r.Err? ==> r.error == IndexError
    ensures r.Ok? ==> '/' !in r.value
    ensures r.Ok? ==> |Split(cidrBlock, '/')| >= 2 && r.value == Split(cidrBlock, '/')[1]
  {
    var parts := Split(cidrBlock, '/');
    SplitHasSeveralPieces(cidrBlock, '/');
    if |parts| < 2 then Err(IndexError) else Ok(parts[1])
  }

  /** On the canonical text of a network the prefix is the decimal prefix length. */
  lemma PrivatePrefixOfFormattedNetwork(n: Network)
    requires Valid(n)
    ensures PrivatePrefix(FormatNetwork(n)) == Ok(Decimal(n.prefixLen))
  {
    var a, p := FormatAddress(n.address), Decimal(n.prefixLen);
    FormatAddressAlphabet(n.address);
    assert '/' !in p;
    SplitJoin([a, p], '/');
  }

  lemma DigitsHaveNoDot(t: string)
    requires AllDigits(t)
    ensures '.' !in t
  {
  }

  /** For any text the parser accepts: with a slash, the prefix is the whole
      text after it, and when that text is decimal its value is the prefix
      length (a dotted netmask is passed on as it is); without a slash the
      prefix length is 32 and the lookup fails with `IndexError`. */
  lemma PrivatePrefixOfParsedNetwork(s: string)
    requires ParseNetwork(s).Ok?
    ensures '/' in s ==>
      && PrivatePrefix(s).Ok?
      && s == Split(s, '/')[0] + "/" + PrivatePrefix(s).value
      && (|PrivatePrefix(s).value| >= 1 && AllDigits(PrivatePrefix(s).value) ==>
            DecimalValue(PrivatePrefix(s).value) == ParseNetwork(s).value.prefixLen)
    ensures '/' !in s ==>
      ParseNetwork(s).value.prefixLen == 32 && PrivatePrefix(s) == Err(IndexError)
  {
    var parts := Split(s, '/');
    SplitHasSeveralPieces(s, '/');
    if '/' in s {
      assert |parts| == 2;
      JoinSplit(s, '/');
      assert parts[1..] == [parts[1]];
      var t := parts[1];
      if |t| >= 1 && AllDigits(t) && DecimalValue(t) > 32 {
        DigitsHaveNoDot(t);
        SplitWithoutSeparator(t, '.');
        assert false;
      }
    }
  }

  /** The private address of the slurmdbd instance:
      `str(random.choice(list(network)))` with the draw `index`. */
  function PrivateIp(net: Network, index: nat): (ip: string)
    requires Valid(net) && index < AddressCount(net)
    ensures ParseAddress(ip).Ok? && InNetwork(net, ParseAddress(ip).value)
  {
    var a := Addresses(net)[index];
    AddressesAreTheNetwork(net, a);
    ParseFormatAddress(a);
    FormatAddress(a)
  }

  /** Every address of the network can be the one drawn, the network address
      and the broadcast address included. */
  lemma PrivateIpCoversNetwork(net: Network, a: nat)
    requires Valid(net) && InNetwork(net, a)
    ensures exists i :: 0 <= i < AddressCount(net) && PrivateIp(net, i) == FormatAddress(a)
  {
    AddressesAreTheNetwork(net, a);
    var i :| 0 <= i < AddressCount(net) && Addresses(net)[i] == a;
    assert PrivateIp(net, i) == FormatAddress(a);
  }

  /** The first draw gives the network address and the last the broadcast address. */
  lemma PrivateIpEnds(net: Network)
    requires Valid(net)
    ensures PrivateIp(net, 0) == FormatAddress(net.address)
    ensures var last := net.address + AddressCount(net) - 1;
      last < AddressSpace && last % AddressCount(net) == AddressCount(net) - 1 &&
      PrivateIp(net, AddressCount(net) - 1) == FormatAddress(last)
  {
    AddressesEnds(net);
    NetworkFits(net);
  }

  /** `describe_subnets(...)["Subnets"][0]`, of which the fixture reads two fields. */
  datatype SubnetDescription = SubnetDescription(vpcId: string, cidrBlock: string)

  /** The database stack outputs the slurmdbd stack reads, in the order it reads them. */
  const DatabaseOutputKeys: seq<string> :=
    ["DatabaseClientSecurityGroup", "DatabaseSecretArn", "DatabaseHost", "DatabaseAdminUser"]

  /** The first of `keys` missing from `outputs`: the `KeyError` raised. */
  function FirstMissing(outputs: map<string, string>, keys: seq<string>): (r: Option<string>)
    ensures r.Some? ==> r.value in keys && r.value !in outputs
    ensures r.Some? ==> exists i :: 0 <= i < |keys| && keys[i] == r.value && forall j :: 0 <= j < i ==> keys[j] in outputs
    ensures r.None? <==> forall k :: k in keys ==> k in outputs
    decreases |keys|
  {
    if keys == [] then None
    else if keys[0] !in outputs then
      Some(keys[0])
    else
      var r := FirstMissing(outputs, keys[1..]);
      assert forall k :: k in keys ==> k == keys[0] || k in keys[1..];
      if r.Some? then
        var i :| 0 <= i < |keys| - 1 && keys[1..][i] == r.value && forall j :: 0 <= j < i ==> keys[1..][j] in outputs;
        assert keys[i + 1] == r.value && forall j :: 0 <= j < i + 1 ==> keys[j] in outputs by {
          forall j | 0 <= j < i + 1 ensures keys[j] in outputs {
            if j > 0 { assert keys[j] == keys[1..][j - 1]; }
          }
        }
        r
      else r
  }

  const SlurmDbdParameterKeys: seq<string> := [
    "AmiId", "DBMSClientSG", "DBMSDatabaseName", "DBMSPasswordSecretArn", "DBMSUri",
    "DBMSUsername", "InstanceType", "KeyName", "MungeKeySecretArn", "PrivateIp",
    "PrivatePrefix", "SubnetId", "SlurmdbdPort", "VPCId", "EnableSlurmdbdSystemService"]

  /** The keys of the slurmdbd parameters: the fixed fifteen, and
      `CustomCookbookUrl` last exactly when that option is set. */
  function SlurmDbdKeys(customCookbookUrl: Option<string>): seq<string> {
    SlurmDbdParameterKeys + if Truthy(customCookbookUrl) then ["CustomCookbookUrl"] else []
  }

  lemma FixedSlurmDbdKeysDistinct()
    ensures Distinct(SlurmDbdParameterKeys)
  {
  }

  lemma SlurmDbdKeysDistinct(customCookbookUrl: Option<string>)
    ensures Distinct(SlurmDbdKeys(customCookbookUrl))
  {
    FixedSlurmDbdKeysDistinct();
    assert "CustomCookbookUrl" !in SlurmDbdParameterKeys;
  }

  /** What the slurmdbd fixture reads before it builds the parameter list. */
  datatype SlurmDbdInputs = SlurmDbdInputs(
    customAmi: Option<string>,          // the `custom_ami` option
    latestAmi: string,                  // what `retrieve_latest_ami` answers
    databaseOutputs: map<string, string>,
    keyName: string,                    // the `key_name` option
    mungeKeySecretArn: string,
    publicSubnetId: string,             // `vpc_stack_for_database.get_public_subnet()`
    subnet: SubnetDescription,
    ipIndex: nat,                       // the `random.choice` draw
    customCookbookUrl: Option<string>)  // the `custom_chef_cookbook` option

  /** The draw picks one of the addresses of the subnet, when it parses. */
  predicate ValidIpDraw(subnet: SubnetDescription, ipIndex: nat) {
    ParseNetwork(subnet.cidrBlock).Ok? ==> ipIndex < AddressCount(ParseNetwork(subnet.cidrBlock).value)
  }

  /** `AmiId`: the custom AMI when that option is set, else the latest one. */
  function AmiId(customAmi: Option<string>, latestAmi: string): (ami: string)
    ensures Truthy(customAmi) ==> ami == customAmi.value
    ensures !Truthy(customAmi) ==> ami == latestAmi
  {
    if Truthy(customAmi) then customAmi.value else latestAmi
  }

  /** The fifteen fixed parameters of the slurmdbd stack. */
  function FixedSlurmDbdParameters(i: SlurmDbdInputs, ip: string, prefix: string): (ps: seq<Parameter>)
    requires forall k :: k in DatabaseOutputKeys ==> k in i.databaseOutputs
    ensures Keys(ps) == SlurmDbdParameterKeys
  {
    [
      Parameter("AmiId", AmiId(i.customAmi, i.latestAmi)),
      Parameter("DBMSClientSG", i.databaseOutputs["DatabaseClientSecurityGroup"]),
      Parameter("DBMSDatabaseName", "slurm_database"),
      Parameter("DBMSPasswordSecretArn", i.databaseOutputs["DatabaseSecretArn"]),
      Parameter("DBMSUri", i.databaseOutputs["DatabaseHost"]),
      Parameter("DBMSUsername", i.databaseOutputs["DatabaseAdminUser"]),
      Parameter("InstanceType", "c5.large"),
      Parameter("KeyName", i.keyName),
      Parameter("MungeKeySecretArn", i.mungeKeySecretArn),
      Parameter("PrivateIp", ip),
      Parameter("PrivatePrefix", prefix),
      Parameter("SubnetId", i.publicSubnetId),
      Parameter("SlurmdbdPort", "6819"),
      Parameter("VPCId", i.subnet.vpcId),
      Parameter("EnableSlurmdbdSystemService", "true")
    ]
  }

  /** `stack_parameters.append(...)` of the cookbook URL when it is set. */
  function WithCookbook(fixed: seq<Parameter>, customCookbookUrl: Option<string>): (ps: seq<Parameter>)
    ensures |ps| == |fixed| + (if Truthy(customCookbookUrl) then 1 else 0) && ps[..|fixed|] == fixed
    ensures Truthy(customCookbookUrl) ==> ps[|fixed|] == Parameter("CustomCookbookUrl", customCookbookUrl.value)
  {
    if Truthy(customCookbookUrl) then fixed + [Parameter("CustomCookbookUrl", customCookbookUrl.value)]
    else fixed
  }

  lemma CookbookKeys(fixed: seq<Parameter>, customCookbookUrl: Option<string>)
    requires Keys(fixed) == SlurmDbdParameterKeys
    ensures Keys(WithCookbook(fixed, customCookbookUrl)) == SlurmDbdKeys(customCookbookUrl)
    ensures DistinctKeys(WithCookbook(fixed, customCookbookUrl))
  {
    var ps := WithCookbook(fixed, customCookbookUrl);
    assert Keys(ps) == SlurmDbdKeys(customCookbookUrl);
    SlurmDbdKeysDistinct(customCookbookUrl);
    assert forall i :: 0 <= i < |ps| ==> ps[i].key == SlurmDbdKeys(customCookbookUrl)[i];
  }

  /** The slurmdbd parameter list, or the exception raised on the way to it:
      `IPv4Network` first, then the database outputs in list order, then the
      prefix lookup. */
  function SlurmDbdParameterList(i: SlurmDbdInputs): (r: Result<seq<Parameter>, Error>)
    requires ValidIpDraw(i.subnet, i.ipIndex)
    ensures ParseNetwork(i.subnet.cidrBlock).Err? ==> r == Err(ValueError(ParseNetwork(i.subnet.cidrBlock).error))
    ensures ParseNetwork(i.subnet.cidrBlock).Ok? && FirstMissing(i.databaseOutputs, DatabaseOutputKeys).Some? ==>
      r == Err(KeyError(FirstMissing(i.databaseOutputs, DatabaseOutputKeys).value))
    ensures ParseNetwork(i.subnet.cidrBlock).Ok? && FirstMissing(i.databaseOutputs, DatabaseOutputKeys).None? &&
            '/' !in i.subnet.cidrBlock ==>
      r == Err(IndexError)
    ensures r.Ok? <==>
      ParseNetwork(i.subnet.cidrBlock).Ok? && FirstMissing(i.databaseOutputs, DatabaseOutputKeys).None? &&
      '/' in i.subnet.cidrBlock
    ensures r.Ok? ==> Keys(r.value) == SlurmDbdKeys(i.customCookbookUrl) && DistinctKeys(r.value)
  {
    match ParseNetwork(i.subnet.cidrBlock)
    case Err(e) => Err(ValueError(e))
    case Ok(net) =>
      var ip := PrivateIp(net, i.ipIndex);
      match FirstMissing(i.databaseOutputs, DatabaseOutputKeys)
      case Some(k) => Err(KeyError(k))
      case None =>
        match PrivatePrefix(i.subnet.cidrBlock)
        case Err(e) => Err(e)
        case Ok(prefix) =>
          var ps := WithCookbook(FixedSlurmDbdParameters(i, ip, prefix), i.customCookbookUrl);
          CookbookKeys(FixedSlurmDbdParameters(i, ip, prefix), i.customCookbookUrl);
          Ok(ps)
  }

  /** The entries the fixture writes as literals, and the key pair name. */
  lemma WithCookbookConstantValues(i: SlurmDbdInputs, ip: string, prefix: string)
    requires forall k :: k in DatabaseOutputKeys ==> k in i.databaseOutputs
    ensures var ps := WithCookbook(FixedSlurmDbdParameters(i, ip, prefix), i.customCookbookUrl);
      && Lookup(ps, "DBMSDatabaseName") == Some("slurm_database")
      && Lookup(ps, "InstanceType") == Some("c5.large")
      && Lookup(ps, "KeyName") == Some(i.keyName)
      && Lookup(ps, "SlurmdbdPort") == Some("6819")
      && Lookup(ps, "EnableSlurmdbdSystemService") == Some("true")
  {
    var fixed := FixedSlurmDbdParameters(i, ip, prefix);
    FixedKeysDistinct(i, ip, prefix);
    LookupDistinct(fixed, 2);
    LookupDistinct(fixed, 6);
    LookupDistinct(fixed, 7);
    LookupDistinct(fixed, 12);
    LookupDistinct(fixed, 14);
    WithCookbookKeeps(fixed, i.customCookbookUrl, "DBMSDatabaseName");
    WithCookbookKeeps(fixed, i.customCookbookUrl, "InstanceType");
    WithCookbookKeeps(fixed, i.customCookbookUrl, "KeyName");
    WithCookbookKeeps(fixed, i.customCookbookUrl, "SlurmdbdPort");
    WithCookbookKeeps(fixed, i.customCookbookUrl, "EnableSlurmdbdSystemService");
  }

  /** The entries copied from the database stack's outputs. */
  lemma WithCookbookOutputValues(i: SlurmDbdInputs, ip: string, prefix: string)
    requires forall k :: k in DatabaseOutputKeys ==> k in i.databaseOutputs
    ensures var ps := WithCookbook(FixedSlurmDbdParameters(i, ip, prefix), i.customCookbookUrl);
      && Lookup(ps, "DBMSClientSG") == Some(i.databaseOutputs["DatabaseClientSecurityGroup"])
      && Lookup(ps, "DBMSPasswordSecretArn") == Some(i.databaseOutputs["DatabaseSecretArn"])
      && Lookup(ps, "DBMSUri") == Some(i.databaseOutputs["DatabaseHost"])
      && Lookup(ps, "DBMSUsername") == Some(i.databaseOutputs["DatabaseAdminUser"])
  {
    var fixed := FixedSlurmDbdParameters(i, ip, prefix);
    FixedKeysDistinct(i, ip, prefix);
    LookupDistinct(fixed, 1);
    LookupDistinct(fixed, 3);
    LookupDistinct(fixed, 4);
    LookupDistinct(fixed, 5);
    WithCookbookKeeps(fixed, i.customCookbookUrl, "DBMSClientSG");
    WithCookbookKeeps(fixed, i.customCookbookUrl, "DBMSPasswordSecretArn");
    WithCookbookKeeps(fixed, i.customCookbookUrl, "DBMSUri");
    WithCookbookKeeps(fixed, i.customCookbookUrl, "DBMSUsername");
  }

  /** The entries taken from the options, the subnet and the munge key. */
  lemma WithCookbookOtherValues(i: SlurmDbdInputs, ip: string, prefix: string)
    requires forall k :: k in DatabaseOutputKeys ==> k in i.databaseOutputs
    ensures var ps := WithCookbook(FixedSlurmDbdParameters(i, ip, prefix), i.customCookbookUrl);
      && Lookup(ps, "AmiId") == Some(AmiId(i.customAmi, i.latestAmi))
      && Lookup(ps, "MungeKeySecretArn") == Some(i.mungeKeySecretArn)
      && Lookup(ps, "PrivateIp") == Some(ip)
      && Lookup(ps, "PrivatePrefix") == Some(prefix)
      && Lookup(ps, "SubnetId") == Some(i.publicSubnetId)
      && Lookup(ps, "VPCId") == Some(i.subnet.vpcId)
      && Lookup(ps, "CustomCookbookUrl") == if Truthy(i.customCookbookUrl) then i.customCookbookUrl else None
  {
    var fixed := FixedSlurmDbdParameters(i, ip, prefix);
    FixedKeysDistinct(i, ip, prefix);
    LookupDistinct(fixed, 0);
    LookupDistinct(fixed, 8);
    LookupDistinct(fixed, 9);
    LookupDistinct(fixed, 10);
    LookupDistinct(fixed, 11);
    LookupDistinct(fixed, 13);
    WithCookbookKeeps(fixed, i.customCookbookUrl, "AmiId");
    WithCookbookKeeps(fixed, i.customCookbookUrl, "MungeKeySecretArn");
    WithCookbookKeeps(fixed, i.customCookbookUrl, "PrivateIp");
    WithCookbookKeeps(fixed, i.customCookbookUrl, "PrivatePrefix");
    WithCookbookKeeps(fixed, i.customCookbookUrl, "SubnetId");
    WithCookbookKeeps(fixed, i.customCookbookUrl, "VPCId");
    CookbookEntry(fixed, i.customCookbookUrl);
  }

  lemma FixedKeysDistinct(i: SlurmDbdInputs, ip: string, prefix: string)
    requires forall k :: k in DatabaseOutputKeys ==> k in i.databaseOutputs
    ensures DistinctKeys(FixedSlurmDbdParameters(i, ip, prefix))
  {
    var fixed := FixedSlurmDbdParameters(i, ip, prefix);
    FixedSlurmDbdKeysDistinct();
    assert forall k :: 0 <= k < |fixed| ==> fixed[k].key == SlurmDbdParameterKeys[k];
  }

  /** Adding the cookbook entry leaves every other key's value alone. */
  lemma WithCookbookKeeps(fixed: seq<Parameter>, customCookbookUrl: Option<string>, key: string)
    requires key != "CustomCookbookUrl"
    ensures Lookup(WithCookbook(fixed, customCookbookUrl), key) == Lookup(fixed, key)
  {
    if Truthy(customCookbookUrl) {
      var extra := [Parameter("CustomCookbookUrl", customCookbookUrl.value)];
      LookupAppend(fixed, extra, key);
      assert Lookup(extra[1..], key) == None;
    }
  }

  /** The cookbook URL is found exactly when the option is set. */
  lemma CookbookEntry(fixed: seq<Parameter>, customCookbookUrl: Option<string>)
    requires Keys(fixed) == SlurmDbdParameterKeys
    ensures Lookup(WithCookbook(fixed, customCookbookUrl), "CustomCookbookUrl") ==
      if Truthy(customCookbookUrl) then customCookbookUrl else None
  {
    assert "CustomCookbookUrl" !in SlurmDbdParameterKeys;
    LookupAbsent(fixed, "CustomCookbookUrl");
    if Truthy(customCookbookUrl) {
      var extra := [Parameter("CustomCookbookUrl", customCookbookUrl.value)];
      LookupAppend(fixed, extra, "CustomCookbookUrl");
    }
  }

  /** What the slurmdbd stack receives under each key: the database outputs
      verbatim, the chosen AMI, the drawn address and the subnet's prefix, and
      the cookbook URL exactly when that option is set. */
  lemma SlurmDbdParameterValues(i: SlurmDbdInputs)
    requires ValidIpDraw(i.subnet, i.ipIndex)
    requires SlurmDbdParameterList(i).Ok?
    ensures var ps := SlurmDbdParameterList(i).value;
      var net := ParseNetwork(i.subnet.cidrBlock).value;
      && Lookup(ps, "AmiId") == Some(AmiId(i.customAmi, i.latestAmi))
      && Lookup(ps, "DBMSDatabaseName") == Some("slurm_database")
      && Lookup(ps, "InstanceType") == Some("c5.large")
      && Lookup(ps, "KeyName") == Some(i.keyName)
      && Lookup(ps, "SlurmdbdPort") == Some("6819")
      && Lookup(ps, "EnableSlurmdbdSystemService") == Some("true")
      && Lookup(ps, "DBMSClientSG") == Some(i.databaseOutputs["DatabaseClientSecurityGroup"])
      && Lookup(ps, "DBMSPasswordSecretArn") == Some(i.databaseOutputs["DatabaseSecretArn"])
      && Lookup(ps, "DBMSUri") == Some(i.databaseOutputs["DatabaseHost"])
      && Lookup(ps, "DBMSUsername") == Some(i.databaseOutputs["DatabaseAdminUser"])
      && Lookup(ps, "MungeKeySecretArn") == Some(i.mungeKeySecretArn)
      && Lookup(ps, "PrivateIp") == Some(PrivateIp(net, i.ipIndex))
      && Lookup(ps, "PrivatePrefix") == Some(PrivatePrefix(i.subnet.cidrBlock).value)
      && Lookup(ps, "SubnetId") == Some(i.publicSubnetId)
      && Lookup(ps, "VPCId") == Some(i.subnet.vpcId)
      && Lookup(ps, "CustomCookbookUrl") == if Truthy(i.customCookbookUrl) then i.customCookbookUrl else None
  {
    var net := ParseNetwork(i.subnet.cidrBlock).value;
    var ip, prefix := PrivateIp(net, i.ipIndex), PrivatePrefix(i.subnet.cidrBlock).value;
    WithCookbookConstantValues(i, ip, prefix);
    WithCookbookOutputValues(i, ip, prefix);
    WithCookbookOtherValues(i, ip, prefix);
  }

  /** The parameter list as the fixture builds it: the fixed entries, then an
      in-place append of the cookbook URL when that option is set. */
  method SlurmDbdStackParameters(i: SlurmDbdInputs) returns (r: Result<seq<Parameter>, Error>)
    requires ValidIpDraw(i.subnet, i.ipIndex)
    ensures r == SlurmDbdParameterList(i)
  {
    var parsed := ParseNetwork(i.subnet.cidrBlock);
    if parsed.Err? {
      return Err(ValueError(parsed.error));
    }
    var ip := PrivateIp(parsed.value, i.ipIndex);
    var missing := FirstMissing(i.databaseOutputs, DatabaseOutputKeys);
    if missing.Some? {
      return Err(KeyError(missing.value));
    }
    var prefix := PrivatePrefix(i.subnet.cidrBlock);
    if prefix.Err? {
      return Err(prefix.error);
    }
    var stackParameters := FixedSlurmDbdParameters(i, ip, prefix.value);
    if Truthy(i.customCookbookUrl) {
      stackParameters := stackParameters + [Parameter("CustomCookbookUrl", i.customCookbookUrl.value)];
    }
    r := Ok(stackParameters);
  }
}
