/** The request mapper: turns a local command into the appliance's group
    and property tree. It writes, in this order, the purify mode, the fan
    level, the humidifier state and level, and the power state, each through
    get-or-create into the group list of the fixed envelope. */
module RequestMapper {
  import opened Wrappers
  import opened Local
  import opened Dsapi
  import opened PropertyTree
  import opened RuleTables

  const PurifyGroup: string := "e_3007"
  const HumidifyGroup: string := "e_3001"
  const PowerGroup: string := "e_A002"
  const HumidifyStateProperty: string := "p_3F"
  const PowerStateProperty: string := "p_01"

  /** Purify and humidify are both given: only then are the purify and
      humidify groups written. */
  predicate HasMode(req: LocalRequest) {
    req.purify.Some? && req.humidify.Some?
  }

  // Each step acts on the group list of the envelope (`getGroupList`) and
  // on nothing else, so the steps thread that list.

  function MapPurify(req: LocalRequest, groups: seq<Group>): seq<Group> {
    if HasMode(req) then
      SetProperty(groups, PurifyGroup, PurifyModePropertyName(req.humidify.value), PurifyModePropertyValue(req.purify.value))
    else groups
  }

  function MapFan(req: LocalRequest, groups: seq<Group>): seq<Group> {
    if HasMode(req) && IsFan(req.purify.value) then
      SetProperty(groups, PurifyGroup, FanLevelPropertyName(req.humidify.value), FanLevelPropertyValue(req.purify.value))
    else groups
  }

  function MapHumidify(req: LocalRequest, groups: seq<Group>): Result<seq<Group>, MapError> {
    if HasMode(req) then
      var purify, humidify := req.purify.value, req.humidify.value;
      var groups := SetProperty(groups, HumidifyGroup, HumidifyStateProperty, HumidifyStatePropertyValue(humidify));
      if humidify != Humidify.OFF then
        var name :- HumidifyLevelPropertyName(purify);
        Success(SetProperty(groups, PurifyGroup, name, HumidifyLevelPropertyValue(humidify)))
      else Success(groups)
    else Success(groups)
  }

  function MapPower(req: LocalRequest, groups: seq<Group>): seq<Group> {
    match req.power
    case Some(power) => SetProperty(groups, PowerGroup, PowerStateProperty, PowerStatePropertyValue(power))
    case None => groups
  }

  /** The full encoding. It fails exactly when a mode with implicit humidity
      is combined with the humidifier on; otherwise it yields the fixed
      envelope. */
  function Map(req: LocalRequest): (r: Result<DsapiRequest, MapError>)
    ensures r.Failure? <==> HasMode(req) && !ValidCommand(req.purify.value, req.humidify.value)
    ensures r.Success? ==> IsEnvelope(r.value)
  {
    var groups := MapPurify(req, []);
    var groups := MapFan(req, groups);
    var groups :- MapHumidify(req, groups);
    var groups := MapPower(req, groups);
    Success(Envelope(groups))
  }

  /** The mode slot, then the fan level for a manual fan mode. */
  function ModeAndFan(purify: Purify, humidify: Humidify): seq<Property> {
    [Property(PurifyModePropertyName(humidify), PurifyModePropertyValue(purify))]
    + (if IsFan(purify) then [Property(FanLevelPropertyName(humidify), FanLevelPropertyValue(purify))] else [])
  }

  /** The purify group a valid (mode, humidity) pair produces: the mode slot
      and fan level, then the humidity level when the humidifier is on. */
  function ExpectedPurifyGroup(purify: Purify, humidify: Humidify): Group
    requires ValidCommand(purify, humidify)
  {
    Group(PurifyGroup,
      ModeAndFan(purify, humidify)
      + (if humidify != Humidify.OFF
         then [Property(HumidifyLevelPropertyName(purify).value, HumidifyLevelPropertyValue(humidify))]
         else []))
  }

  /** The group list an encodable request produces, written out directly
      rather than through get-or-create. */
  function ExpectedGroups(req: LocalRequest): seq<Group>
    requires HasMode(req) ==> ValidCommand(req.purify.value, req.humidify.value)
  {
    (if HasMode(req)
     then [ ExpectedPurifyGroup(req.purify.value, req.humidify.value),
            Group(HumidifyGroup, [Property(HumidifyStateProperty, HumidifyStatePropertyValue(req.humidify.value))]) ]
     else [])
    + (if req.power.Some?
       then [Group(PowerGroup, [Property(PowerStateProperty, PowerStatePropertyValue(req.power.value))])]
       else [])
  }

  /** The purify and fan steps leave the purify group holding the mode slot
      followed by the fan level of a manual fan mode. */
  lemma MapPurifyFanGroups(req: LocalRequest)
    requires HasMode(req)
    ensures MapFan(req, MapPurify(req, [])) == [Group(PurifyGroup, ModeAndFan(req.purify.value, req.humidify.value))]
  {
    var purify, humidify := req.purify.value, req.humidify.value;
    PurifyGroupSlotsDistinct(purify, humidify);
    var mode := Property(PurifyModePropertyName(humidify), PurifyModePropertyValue(purify));
    SetPropertyCreatesGroup([], PurifyGroup, mode.pn, mode.pv);
    var g1 := MapPurify(req, []);
    assert g1 == [Group(PurifyGroup, [mode])];
    if IsFan(purify) {
      var fan := Property(FanLevelPropertyName(humidify), FanLevelPropertyValue(purify));
      assert FirstIndex(GroupNames(g1), PurifyGroup, 0);
      assert PropertyNames([mode]) == [mode.pn];
      SetPropertyAppends(g1, PurifyGroup, fan.pn, fan.pv, 0);
      assert ModeAndFan(purify, humidify) == [mode] + [fan];
    } else {
      assert ModeAndFan(purify, humidify) == [mode];
    }
  }

  /** The humidify step appends the humidify group and, with the humidifier
      on, the level slot to the purify group. */
  lemma MapHumidifyGroups(req: LocalRequest)
    requires HasMode(req) && ValidCommand(req.purify.value, req.humidify.value)
    ensures MapHumidify(req, MapFan(req, MapPurify(req, []))) == Success(ExpectedGroups(req.(power := None)))
  {
    var purify, humidify := req.purify.value, req.humidify.value;
    var props := ModeAndFan(purify, humidify);
    var g2 := MapFan(req, MapPurify(req, []));
    MapPurifyFanGroups(req);
    var state := Property(HumidifyStateProperty, HumidifyStatePropertyValue(humidify));
    var g2' := SetProperty(g2, HumidifyGroup, state.pn, state.pv);
    SetPropertyCreatesGroup(g2, HumidifyGroup, state.pn, state.pv);
    assert g2' == [Group(PurifyGroup, props), Group(HumidifyGroup, [state])];
    if humidify != Humidify.OFF {
      PurifyGroupSlotsDistinct(purify, humidify);
      var name := HumidifyLevelPropertyName(purify).value;
      assert FirstIndex(GroupNames(g2'), PurifyGroup, 0);
      assert name !in PropertyNames(props);
      var level := Property(name, HumidifyLevelPropertyValue(humidify));
      SetPropertyAppends(g2', PurifyGroup, name, level.pv, 0);
      assert g2'[0 := Group(PurifyGroup, props + [level])]
          == [Group(PurifyGroup, props + [level]), Group(HumidifyGroup, [state])];
      assert ExpectedPurifyGroup(purify, humidify) == Group(PurifyGroup, props + [level]);
      assert MapHumidify(req, g2) == Success(SetProperty(g2', PurifyGroup, name, level.pv));
      assert ExpectedGroups(req.(power := None))
          == [Group(PurifyGroup, props + [level]), Group(HumidifyGroup, [state])];
    } else {
      assert ExpectedPurifyGroup(purify, humidify) == Group(PurifyGroup, props);
      assert MapHumidify(req, g2) == Success(g2');
      assert ExpectedGroups(req.(power := None)) == [Group(PurifyGroup, props), Group(HumidifyGroup, [state])];
    }
  }

  /** Exact output: a successful encoding holds precisely the expected
      groups, in first-creation order (purify, humidify, power), each with
      its properties in insertion order. */
  lemma MapGroups(req: LocalRequest)
    requires Map(req).Success?
    ensures GroupList(Map(req).value) == ExpectedGroups(req)
  {
    var g3 := MapHumidify(req, MapFan(req, MapPurify(req, []))).value;
    if HasMode(req) {
      MapHumidifyGroups(req);
    }
    assert g3 == ExpectedGroups(req.(power := None));
    if req.power.Some? {
      SetPropertyCreatesGroup(g3, PowerGroup, PowerStateProperty, PowerStatePropertyValue(req.power.value));
    }
  }

  /** Uniqueness: after the mapping, group names are pairwise distinct and
      so are property names within each group. This follows from the
      get-or-create builder alone, whatever the rule tables hold. */
  lemma MapWellFormed(req: LocalRequest)
    requires Map(req).Success?
    ensures WellFormed(GroupList(Map(req).value))
  {
    assert WellFormed([]);
    var g1 := MapPurify(req, []);
    if HasMode(req) {
      SetPropertyWellFormed([], PurifyGroup, PurifyModePropertyName(req.humidify.value), PurifyModePropertyValue(req.purify.value));
    }
    var g2 := MapFan(req, g1);
    if HasMode(req) && IsFan(req.purify.value) {
      SetPropertyWellFormed(g1, PurifyGroup, FanLevelPropertyName(req.humidify.value), FanLevelPropertyValue(req.purify.value));
    }
    var g3 := MapHumidify(req, g2).value;
    if HasMode(req) {
      var humidify := req.humidify.value;
      var g2' := SetProperty(g2, HumidifyGroup, HumidifyStateProperty, HumidifyStatePropertyValue(humidify));
      SetPropertyWellFormed(g2, HumidifyGroup, HumidifyStateProperty, HumidifyStatePropertyValue(humidify));
      if humidify != Humidify.OFF {
        var name := HumidifyLevelPropertyName(req.purify.value).value;
        SetPropertyWellFormed(g2', PurifyGroup, name, HumidifyLevelPropertyValue(humidify));
      }
    }
    if req.power.Some? {
      SetPropertyWellFormed(g3, PowerGroup, PowerStateProperty, PowerStatePropertyValue(req.power.value));
    }
  }

  /** The humidify group and the slots of the purify group, read from the
      expected tree. */
  lemma ExpectedModeLookup(req: LocalRequest, groups: seq<Group>)
    requires HasMode(req) && ValidCommand(req.purify.value, req.humidify.value)
    requires groups == ExpectedGroups(req) && WellFormed(groups)
    ensures var purify, humidify := req.purify.value, req.humidify.value;
      && Lookup(groups, HumidifyGroup, HumidifyStateProperty) == Some(HumidifyStatePropertyValue(humidify))
      && Lookup(groups, PurifyGroup, PurifyModePropertyName(humidify)) == Some(PurifyModePropertyValue(purify))
      && Lookup(groups, PurifyGroup, FanLevelPropertyName(humidify))
         == (if IsFan(purify) then Some(FanLevelPropertyValue(purify)) else None)
      && (humidify != Humidify.OFF ==>
            Lookup(groups, PurifyGroup, HumidifyLevelPropertyName(purify).value)
            == Some(HumidifyLevelPropertyValue(humidify)))
  {
    var purify, humidify := req.purify.value, req.humidify.value;
    PurifyGroupSlotsDistinct(purify, humidify);
    var modeAndFan := ModeAndFan(purify, humidify);
    var props := groups[0].pch;
    assert groups[0].pn == PurifyGroup && groups[1].pn == HumidifyGroup;
    assert props[..|modeAndFan|] == modeAndFan;
    assert groups[1].pch == [Property(HumidifyStateProperty, HumidifyStatePropertyValue(humidify))];
    LookupWellFormed(groups, 0, 0);
    LookupWellFormed(groups, 1, 0);
    if IsFan(purify) {
      LookupWellFormed(groups, 0, 1);
    } else {
      assert PropertyNames(props) == [props[0].pn] + (if humidify != Humidify.OFF then [props[1].pn] else []);
      LookupMissing(groups, 0, FanLevelPropertyName(humidify));
    }
    if humidify != Humidify.OFF {
      assert props[|modeAndFan|].pn == HumidifyLevelPropertyName(purify).value;
      LookupWellFormed(groups, 0, |modeAndFan|);
    }
  }

  /** The power slot, read from the expected tree. */
  lemma ExpectedPowerLookup(req: LocalRequest, groups: seq<Group>)
    requires HasMode(req) ==> ValidCommand(req.purify.value, req.humidify.value)
    requires groups == ExpectedGroups(req) && WellFormed(groups)
    ensures Lookup(groups, PowerGroup, PowerStateProperty)
         == (if req.power.Some? then Some(PowerStatePropertyValue(req.power.value)) else None)
    ensures !HasMode(req) ==> PurifyGroup !in GroupNames(groups) && HumidifyGroup !in GroupNames(groups)
  {
    if req.power.Some? {
      LookupWellFormed(groups, |groups| - 1, 0);
    } else {
      assert PowerGroup !in GroupNames(groups);
    }
  }

  /** The output read as a map from (group, property) to value: the power
      slot holds the power code exactly when power is given; with a mode,
      the humidifier state, the mode slot, the fan slot (only for a manual
      fan mode) and the level slot (only with the humidifier on) hold their
      codes; without one, neither the purify nor the humidify group
      exists. */
  lemma MapLookup(req: LocalRequest)
    requires Map(req).Success?
    ensures var groups := GroupList(Map(req).value);
      && Lookup(groups, PowerGroup, PowerStateProperty)
         == (if req.power.Some? then Some(PowerStatePropertyValue(req.power.value)) else None)
      && (!HasMode(req) ==> PurifyGroup !in GroupNames(groups) && HumidifyGroup !in GroupNames(groups))
      && (HasMode(req) ==>
           var purify, humidify := req.purify.value, req.humidify.value;
           && Lookup(groups, HumidifyGroup, HumidifyStateProperty) == Some(HumidifyStatePropertyValue(humidify))
           && Lookup(groups, PurifyGroup, PurifyModePropertyName(humidify)) == Some(PurifyModePropertyValue(purify))
           && Lookup(groups, PurifyGroup, FanLevelPropertyName(humidify))
              == (if IsFan(purify) then Some(FanLevelPropertyValue(purify)) else None)
           && (humidify != Humidify.OFF ==>
                 Lookup(groups, PurifyGroup, HumidifyLevelPropertyName(purify).value)
                 == Some(HumidifyLevelPropertyValue(humidify))))
  {
    var groups := GroupList(Map(req).value);
    MapGroups(req);
    MapWellFormed(req);
    ExpectedPowerLookup(req, groups);
    if HasMode(req) {
      ExpectedModeLookup(req, groups);
    }
  }

  /** A successful encoding is the envelope around the expected groups. */
  lemma MapIsExpectedEnvelope(req: LocalRequest)
    requires HasMode(req) ==> ValidCommand(req.purify.value, req.humidify.value)
    ensures Map(req) == Success(Envelope(ExpectedGroups(req)))
  {
    MapGroups(req);
    EnvelopeDeterminedByGroups(Map(req).value);
  }

  /** Concrete encodings (by `MapIsExpectedEnvelope`, the group lists the
      mapper produces) of a few commands. */
  lemma ExpectedVectors()
    ensures ExpectedGroups(LocalRequest(Some(ON), None, None))
         == [Group("e_A002", [Property("p_01", "01")])]
    ensures ExpectedGroups(LocalRequest(Some(Power.OFF), Some(SMART), None))
         == [Group("e_A002", [Property("p_01", "00")])]
    ensures ExpectedGroups(LocalRequest(None, Some(QUIET), Some(Humidify.OFF)))
         == [Group("e_3007", [Property("p_01", "0100"), Property("p_04", "00")]),
             Group("e_3001", [Property("p_3F", "00")])]
    ensures ExpectedGroups(LocalRequest(None, Some(MOIST), Some(Humidify.OFF)))
         == [Group("e_3007", [Property("p_01", "0500")]),
             Group("e_3001", [Property("p_3F", "00")])]
    ensures ExpectedGroups(LocalRequest(None, Some(QUIET), Some(Humidify.LOW)))
         == [Group("e_3007", [Property("p_03", "0100"), Property("p_06", "00"), Property("p_13", "01")]),
             Group("e_3001", [Property("p_3F", "02")])]
    ensures ExpectedGroups(LocalRequest(Some(ON), Some(AUTOFAN), Some(HIGH)))
         == [Group("e_3007", [Property("p_03", "0200"), Property("p_14", "03")]),
             Group("e_3001", [Property("p_3F", "02")]),
             Group("e_A002", [Property("p_01", "01")])]
  {
    assert ModeAndFan(QUIET, Humidify.OFF) == [Property("p_01", "0100"), Property("p_04", "00")];
    assert ExpectedPurifyGroup(QUIET, Humidify.OFF) == Group("e_3007", ModeAndFan(QUIET, Humidify.OFF));
    assert ModeAndFan(MOIST, Humidify.OFF) == [Property("p_01", "0500")];
    assert ExpectedPurifyGroup(MOIST, Humidify.OFF) == Group("e_3007", ModeAndFan(MOIST, Humidify.OFF));
    assert ModeAndFan(QUIET, Humidify.LOW) == [Property("p_03", "0100"), Property("p_06", "00")];
    assert ExpectedPurifyGroup(QUIET, Humidify.LOW)
        == Group("e_3007", ModeAndFan(QUIET, Humidify.LOW) + [Property("p_13", "01")]);
    assert ModeAndFan(QUIET, Humidify.LOW) + [Property("p_13", "01")]
        == [Property("p_03", "0100"), Property("p_06", "00"), Property("p_13", "01")];
    assert ModeAndFan(AUTOFAN, HIGH) == [Property("p_03", "0200")];
    assert ExpectedPurifyGroup(AUTOFAN, HIGH) == Group("e_3007", ModeAndFan(AUTOFAN, HIGH) + [Property("p_14", "03")]);
    assert ModeAndFan(AUTOFAN, HIGH) + [Property("p_14", "03")] == [Property("p_03", "0200"), Property("p_14", "03")];
  }

  /** More concrete encodings: SMART with the humidifier off, and the level
      slot of every mode family with the humidifier on. */
  lemma ExpectedVectorsLevelSlots()
    ensures ExpectedGroups(LocalRequest(None, Some(SMART), Some(Humidify.OFF)))
         == [Group("e_3007", [Property("p_01", "0000")]),
             Group("e_3001", [Property("p_3F", "00")])]
    ensures ExpectedGroups(LocalRequest(None, Some(ECONO), Some(Humidify.LOW)))
         == [Group("e_3007", [Property("p_03", "0300"), Property("p_15", "01")]),
             Group("e_3001", [Property("p_3F", "02")])]
    ensures ExpectedGroups(LocalRequest(None, Some(POLLEN), Some(Humidify.STANDARD)))
         == [Group("e_3007", [Property("p_03", "0400"), Property("p_16", "02")]),
             Group("e_3001", [Property("p_3F", "02")])]
    ensures ExpectedGroups(LocalRequest(None, Some(CIRCULATOR), Some(HIGH)))
         == [Group("e_3007", [Property("p_03", "0600"), Property("p_18", "03")]),
             Group("e_3001", [Property("p_3F", "02")])]
    ensures ExpectedGroups(LocalRequest(None, Some(TURBO), Some(Humidify.STANDARD)))
         == [Group("e_3007", [Property("p_03", "0100"), Property("p_06", "04"), Property("p_13", "02")]),
             Group("e_3001", [Property("p_3F", "02")])]
  {
    assert ModeAndFan(SMART, Humidify.OFF) == [Property("p_01", "0000")];
    assert ExpectedPurifyGroup(SMART, Humidify.OFF) == Group("e_3007", ModeAndFan(SMART, Humidify.OFF));
    assert ModeAndFan(ECONO, Humidify.LOW) == [Property("p_03", "0300")];
    assert ExpectedPurifyGroup(ECONO, Humidify.LOW) == Group("e_3007", ModeAndFan(ECONO, Humidify.LOW) + [Property("p_15", "01")]);
    assert ModeAndFan(ECONO, Humidify.LOW) + [Property("p_15", "01")] == [Property("p_03", "0300"), Property("p_15", "01")];
    assert ModeAndFan(POLLEN, Humidify.STANDARD) == [Property("p_03", "0400")];
    assert ExpectedPurifyGroup(POLLEN, Humidify.STANDARD)
        == Group("e_3007", ModeAndFan(POLLEN, Humidify.STANDARD) + [Property("p_16", "02")]);
    assert ModeAndFan(POLLEN, Humidify.STANDARD) + [Property("p_16", "02")] == [Property("p_03", "0400"), Property("p_16", "02")];
    assert ModeAndFan(CIRCULATOR, HIGH) == [Property("p_03", "0600")];
    assert ExpectedPurifyGroup(CIRCULATOR, HIGH) == Group("e_3007", ModeAndFan(CIRCULATOR, HIGH) + [Property("p_18", "03")]);
    assert ModeAndFan(CIRCULATOR, HIGH) + [Property("p_18", "03")] == [Property("p_03", "0600"), Property("p_18", "03")];
    assert ModeAndFan(TURBO, Humidify.STANDARD) == [Property("p_03", "0100"), Property("p_06", "04")];
    assert ExpectedPurifyGroup(TURBO, Humidify.STANDARD)
        == Group("e_3007", ModeAndFan(TURBO, Humidify.STANDARD) + [Property("p_13", "02")]);
    assert ModeAndFan(TURBO, Humidify.STANDARD) + [Property("p_13", "02")]
        == [Property("p_03", "0100"), Property("p_06", "04"), Property("p_13", "02")];
  }
}
