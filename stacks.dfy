/** CloudFormation stack descriptors and the stack factory, which is modelled
    only as a recorder of the create and delete requests made through it. */
module Stacks {
  import opened Wrappers
  import opened Errors

  /** One `{"ParameterKey": key, "ParameterValue": value}` entry. */
  datatype Parameter = Parameter(key: string, value: string)

  function Keys(ps: seq<Parameter>): (ks: seq<string>)
    ensures |ks| == |ps|
    ensures forall i :: 0 <= i < |ps| ==> ks[i] == ps[i].key
  {
    seq(|ps|, i requires 0 <= i < |ps| => ps[i].key)
  }

  /** The value given for a key: that of its first entry. */
  function Lookup(ps: seq<Parameter>, key: string): Option<string>
    decreases |ps|
  {
    if ps == [] then None
    else if ps[0].key == key then Some(ps[0].value)
    else Lookup(ps[1..], key)
  }

  predicate Distinct(ks: seq<string>) {
    forall i, j :: 0 <= i < j < |ks| ==> ks[i] != ks[j]
  }

  /** No key is given twice. */
  predicate DistinctKeys(ps: seq<Parameter>) {
    Distinct(Keys(ps))
  }

  /** In a list without repeated keys every entry is the one found for its key. */
  lemma {:induction false} LookupDistinct(ps: seq<Parameter>, i: nat)
    requires DistinctKeys(ps) && i < |ps|
    ensures Lookup(ps, ps[i].key) == Some(ps[i].value)
    decreases i
  {
    if i > 0 {
      assert Keys(ps)[0] != Keys(ps)[i];
      assert Keys(ps[1..]) == Keys(ps)[1..];
      assert ps[1..][i - 1] == ps[i];
      LookupDistinct(ps[1..], i - 1);
    }
  }

  /** A key that no entry carries is not found. */
  lemma {:induction false} LookupAbsent(ps: seq<Parameter>, key: string)
    requires key !in Keys(ps)
    ensures Lookup(ps, key) == None
    decreases |ps|
  {
    if ps != [] {
      assert Keys(ps)[0] == ps[0].key;
      assert Keys(ps[1..]) == Keys(ps)[1..];
      LookupAbsent(ps[1..], key);
    }
  }

  /** Looking a key up in two lists joined: the first list answers if it can. */
  lemma {:induction false} LookupAppend(ps: seq<Parameter>, qs: seq<Parameter>, key: string)
    ensures Lookup(ps + qs, key) == if Lookup(ps, key).Some? then Lookup(ps, key) else Lookup(qs, key)
    decreases |ps|
  {
    if ps == [] {
      assert ps + qs == qs;
    } else {
      assert (ps + qs)[0] == ps[0];
      assert (ps + qs)[1..] == ps[1..] + qs;
      LookupAppend(ps[1..], qs, key);
    }
  }

  /** `CfnStack` and `CfnVpcStack`: a stack to create, or (with no template)
      a reference to a stack that already exists. */
  datatype Stack =
    | CfnStack(name: string, region: string, template: Option<string>,
               parameters: seq<Parameter>, capabilities: seq<string>)
    | CfnVpcStack(name: string, region: string, template: Option<string>,
                  defaultAzId: string, azIds: seq<string>)

  /** A request made to the provider through a factory. */
  datatype Call =
    | CreateCall(stack: Stack)
    | DeleteCall(name: string, region: string)
    | DeleteAllCall

  predicate IsDeletion(c: Call) { c.DeleteCall? || c.DeleteAllCall? }

  /** `CfnStacksFactory`: each instance keeps the log of the calls made on it. */
  class StackFactory {
    const credential: Option<string>
    var calls: seq<Call>

    constructor (credential: Option<string>)
      ensures this.credential == credential && calls == []
    {
      this.credential := credential;
      calls := [];
    }

    /** `create_stack`: submit the stack and wait for the provider's verdict. */
    method CreateStack(stack: Stack, providerOk: bool) returns (r: Result<(), Error>)
      modifies this
      ensures calls == old(calls) + [CreateCall(stack)]
      ensures r == if providerOk then Ok(()) else Err(ProvisioningError(stack.name))
    {
      calls := calls + [CreateCall(stack)];
      r := if providerOk then Ok(()) else Err(ProvisioningError(stack.name));
    }

    /** `delete_stack(name, region)` */
    method DeleteStack(name: string, region: string)
      modifies this
      ensures calls == old(calls) + [DeleteCall(name, region)]
    {
      calls := calls + [DeleteCall(name, region)];
    }

    /** `delete_all_stacks()` */
    method DeleteAllStacks()
      modifies this
      ensures calls == old(calls) + [DeleteAllCall]
    {
      calls := calls + [DeleteAllCall];
    }
  }
}
