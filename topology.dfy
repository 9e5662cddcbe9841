/** The network configuration of the VPC stack for the database: a VPC of
    two /17 blocks and a public and a private subnet in one availability zone. */
module Topology {
  import opened Wrappers
  import opened Ipv4
  import opened Text

  datatype Gateway = InternetGateway | NatGateway

  /** `SubnetConfig` */
  datatype SubnetConfig = SubnetConfig(
    name: string,
    cidr: string,
    mapPublicIpOnLaunch: bool,
    hasNatGateway: bool,
    availabilityZone: string,
    defaultGateway: Gateway)

  /** `VPCConfig` */
  datatype VpcConfig = VpcConfig(cidr: string, additionalCidrBlocks: seq<string>, subnets: seq<SubnetConfig>)

  const DatabaseVpcCidr: string := "192.168.0.0/17"
  const DatabaseVpcAdditionalCidr: string := "192.168.128.0/17"

  /** Every subnet routed through a NAT gateway has one to route to. */
  predicate NatRoutesServed(c: VpcConfig) {
    forall i :: 0 <= i < |c.subnets| && c.subnets[i].defaultGateway == NatGateway ==>
      exists j :: 0 <= j < |c.subnets| && c.subnets[j].hasNatGateway
  }

  /** Subnets that give instances public addresses route to the internet gateway,
      and the others do not. */
  predicate PublicMeansInternetRoute(c: VpcConfig) {
    forall i :: 0 <= i < |c.subnets| ==>
      (c.subnets[i].mapPublicIpOnLaunch <==> c.subnets[i].defaultGateway == InternetGateway)
  }

  predicate IsPublicSubnet(s: SubnetConfig) {
    s.mapPublicIpOnLaunch && s.hasNatGateway && s.defaultGateway == InternetGateway
  }

  predicate IsPrivateSubnet(s: SubnetConfig) {
    !s.mapPublicIpOnLaunch && !s.hasNatGateway && s.defaultGateway == NatGateway
  }

  /** The configuration built by `vpc_stack_for_database`; the subnet names
      and CIDRs come from collaborators and are arguments. */
  function DatabaseVpcConfig(publicName: string, privateName: string, publicCidr: string,
                             privateCidr: string, azName: string): (c: VpcConfig)
    ensures c.cidr == DatabaseVpcCidr && c.additionalCidrBlocks == [DatabaseVpcAdditionalCidr]
    ensures |c.subnets| == 2
    ensures IsPublicSubnet(c.subnets[0]) && c.subnets[0].name == publicName && c.subnets[0].cidr == publicCidr
    ensures IsPrivateSubnet(c.subnets[1]) && c.subnets[1].name == privateName && c.subnets[1].cidr == privateCidr
    ensures forall i :: 0 <= i < 2 ==> c.subnets[i].availabilityZone == azName
    ensures NatRoutesServed(c) && PublicMeansInternetRoute(c)
  {
    var publicSubnet := SubnetConfig(publicName, publicCidr, true, true, azName, InternetGateway);
    var privateSubnet := SubnetConfig(privateName, privateCidr, false, false, azName, NatGateway);
    VpcConfig(DatabaseVpcCidr, [DatabaseVpcAdditionalCidr], [publicSubnet, privateSubnet])
  }

  /** 192.168.0.0 */
  const DatabaseVpcBase: nat := 0xC0A8_0000

  lemma FormatLowerDatabaseVpcBlock()
    ensures Valid(Network(DatabaseVpcBase, 17))
    ensures FormatNetwork(Network(DatabaseVpcBase, 17)) == DatabaseVpcCidr
  {
    Pow2Small();
    assert Octets(DatabaseVpcBase) == [192, 168, 0, 0];
    assert Decimal(192) == "192" && Decimal(168) == "168";
    assert Decimal(0) == "0" && Decimal(17) == "17";
    assert Join(["192", "168", "0", "0"], '.') == "192.168.0.0";
  }

  lemma FormatUpperDatabaseVpcBlock()
    ensures Valid(Network(DatabaseVpcBase + 0x8000, 17))
    ensures FormatNetwork(Network(DatabaseVpcBase + 0x8000, 17)) == DatabaseVpcAdditionalCidr
  {
    Pow2Small();
    assert Octets(DatabaseVpcBase + 0x8000) == [192, 168, 128, 0];
    assert Decimal(192) == "192" && Decimal(168) == "168" && Decimal(128) == "128";
    assert Decimal(0) == "0" && Decimal(17) == "17";
    assert Join(["192", "168", "128", "0"], '.') == "192.168.128.0";
  }

  lemma FormatDatabaseVpcBlocks()
    ensures Valid(Network(DatabaseVpcBase, 17)) && Valid(Network(DatabaseVpcBase + 0x8000, 17))
    ensures FormatNetwork(Network(DatabaseVpcBase, 17)) == DatabaseVpcCidr
    ensures FormatNetwork(Network(DatabaseVpcBase + 0x8000, 17)) == DatabaseVpcAdditionalCidr
  {
    FormatLowerDatabaseVpcBlock();
    FormatUpperDatabaseVpcBlock();
  }

  /** The text of both blocks parses to the two halves of 192.168.0.0/16. */
  lemma ParseDatabaseVpcBlocks()
    ensures ParseNetwork(DatabaseVpcCidr) == Ok(Network(DatabaseVpcBase, 17))
    ensures ParseNetwork(DatabaseVpcAdditionalCidr) == Ok(Network(DatabaseVpcBase + 0x8000, 17))
  {
    FormatDatabaseVpcBlocks();
    ParseFormatNetwork(Network(DatabaseVpcBase, 17));
    ParseFormatNetwork(Network(DatabaseVpcBase + 0x8000, 17));
  }

  /** The two blocks of the VPC are disjoint and together are exactly
      192.168.0.0/16. */
  lemma DatabaseVpcBlocks(a: nat)
    ensures !(InNetwork(Network(DatabaseVpcBase, 17), a) && InNetwork(Network(DatabaseVpcBase + 0x8000, 17), a))
    ensures InNetwork(Network(DatabaseVpcBase, 16), a) <==>
      InNetwork(Network(DatabaseVpcBase, 17), a) || InNetwork(Network(DatabaseVpcBase + 0x8000, 17), a)
  {
    Pow2Small();
    var q, r := a / 0x8000, a % 0x8000;
    var h, e := q / 2, q % 2;
    assert a == 0x1_0000 * h + (0x8000 * e + r);
    DivOfMultiplePlus(h, 0x1_0000, 0x8000 * e + r);
    assert a / 0x1_0000 == h;
  }
}
