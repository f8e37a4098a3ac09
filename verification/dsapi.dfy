/** The appliance's wire request: a fixed envelope holding one "set"
    operation on the status endpoint, whose single `e_1002` node carries
    the groups of properties being written. */
module Dsapi {

  /** A leaf: property name `pn` and its value code `pv`. */
  datatype Property = Property(pn: string, pv: string)

  /** A named group of properties. */
  datatype Group = Group(pn: string, pch: seq<Property>)

  /** The `e_1002` node: a named node whose children are groups. */
  datatype Edge = Edge(pn: string, pch: seq<Group>)

  /** The `dgc_status` node. */
  datatype PropertyConfig = PropertyConfig(pn: string, pch: seq<Edge>)

  /** One operation addressed to a device path. */
  datatype Request = Request(op: int, pc: PropertyConfig, to: string)

  datatype DsapiRequest = DsapiRequest(requests: seq<Request>)

  /** The "set property" operation code. */
  const SetOp: int := 3
  const StatusNode: string := "dgc_status"
  const EdgeNode: string := "e_1002"
  const StatusPath: string := "/dsiot/edge/adr_0100.dgc_status"

  /** The fixed shape every outgoing request has: exactly one request with
      operation 3 addressed to the status path, whose configuration node
      `dgc_status` has exactly one child `e_1002`. */
  predicate IsEnvelope(d: DsapiRequest) {
    && |d.requests| == 1
    && d.requests[0].op == SetOp
    && d.requests[0].to == StatusPath
    && d.requests[0].pc.pn == StatusNode
    && |d.requests[0].pc.pch| == 1
    && d.requests[0].pc.pch[0].pn == EdgeNode
  }

  /** The groups of an envelope: the children of its `e_1002` node. */
  function GroupList(d: DsapiRequest): seq<Group>
    requires IsEnvelope(d)
  {
    d.requests[0].pc.pch[0].pch
  }

  /** The envelope holding `groups`; with no groups it is the initial
      request the mapper starts from. */
  function Envelope(groups: seq<Group>): (d: DsapiRequest)
    ensures IsEnvelope(d)
    ensures GroupList(d) == groups
  {
    DsapiRequest([Request(SetOp, PropertyConfig(StatusNode, [Edge(EdgeNode, groups)]), StatusPath)])
  }

  /** An envelope is determined by its group list: everything else in it is
      fixed. */
  lemma EnvelopeDeterminedByGroups(d: DsapiRequest)
    requires IsEnvelope(d)
    ensures Envelope(GroupList(d)) == d
  {
    var e := Envelope(GroupList(d));
    assert e.requests[0].pc.pch == d.requests[0].pc.pch;
    assert e.requests[0].pc == d.requests[0].pc;
    assert e.requests == d.requests;
  }

  /** The names of the groups, in list order. */
  function GroupNames(groups: seq<Group>): (names: seq<string>)
    ensures |names| == |groups|
    ensures forall i :: 0 <= i < |groups| ==> names[i] == groups[i].pn
  {
    seq(|groups|, i requires 0 <= i < |groups| => groups[i].pn)
  }

  /** The names of the properties, in list order. */
  function PropertyNames(props: seq<Property>): (names: seq<string>)
    ensures |names| == |props|
    ensures forall i :: 0 <= i < |props| ==> names[i] == props[i].pn
  {
    seq(|props|, i requires 0 <= i < |props| => props[i].pn)
  }

  /** No name occurs twice. */
  predicate Distinct(names: seq<string>) {
    forall i, j :: 0 <= i < j < |names| ==> names[i] != names[j]
  }

  /** Group names are pairwise distinct, and so are the property names
      within each group. */
  predicate WellFormed(groups: seq<Group>) {
    && Distinct(GroupNames(groups))
    && forall i :: 0 <= i < |groups| ==> Distinct(PropertyNames(groups[i].pch))
  }
}
