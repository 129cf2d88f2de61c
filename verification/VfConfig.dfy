/** Folding the opaque configurations of a claim into one configuration per request
    (pkg/devicestate/statehelpers.go, pkg/api/virtualfunction/v1alpha1/api.go). */
module VfConfigs {
  import opened Attributes

  datatype Settings = Settings(driver: string, addVhostMount: bool, ifName: string,
                               netAttachDefName: string, netAttachDefNamespace: string)

  const DEFAULTS := Settings("", false, "", "", "")

  function Later(old': string, new': string): string { if new' != "" then new' else old' }

  function Overridden(c: Settings, other: Settings): Settings {
    c.(driver := Later(c.driver, other.driver),
       ifName := Later(c.ifName, other.ifName),
       netAttachDefName := Later(c.netAttachDefName, other.netAttachDefName))
  }

  class VfConfig {
    var driver: string
    var addVhostMount: bool
    var ifName: string
    var netAttachDefName: string
    var netAttachDefNamespace: string

    function Value(): Settings
      reads this
    {
      Settings(driver, addVhostMount, ifName, netAttachDefName, netAttachDefNamespace)
    }

    constructor Default()
      ensures Value() == DEFAULTS
    {
      driver, addVhostMount, ifName, netAttachDefName, netAttachDefNamespace := "", false, "", "", "";
    }

    /** Only three of the five fields are carried over. */
    method Override(other: Settings)
      modifies this
      ensures Value() == Overridden(old(Value()), other)
    {
      if other.driver != "" { driver := other.driver; }
      if other.ifName != "" { ifName := other.ifName; }
      if other.netAttachDefName != "" { netAttachDefName := other.netAttachDefName; }
    }
  }

  datatype Source = FromClass | FromClaim | UnknownSource

  /** What decoding opaque parameters yields. */
  datatype Decoded = Decoded(settings: Settings) | Undecodable | NotAVfConfig

  datatype Parameters = NotOpaque | Opaque(driver: string, decoded: Decoded)

  /** No requests at all is stored under the catch-all request "". */
  datatype Configuration = Configuration(source: Source, requests: seq<string>, parameters: Parameters)

  datatype FoldError = InvalidSource | OnlyOpaqueSupported | DecodeFailed | WrongKind
  datatype FoldResult<+T> = Folded(value: T) | FoldFailed(error: FoldError)

  // ----- Specification -----

  function From(configs: seq<Configuration>, source: Source): seq<Configuration> {
    if configs == [] then []
    else From(configs[..|configs| - 1], source) +
         if configs[|configs| - 1].source == source then [configs[|configs| - 1]] else []
  }

  /** Class configurations first, then claim configurations: lowest precedence first. */
  function Candidates(configs: seq<Configuration>): seq<Configuration> {
    From(configs, FromClass) + From(configs, FromClaim)
  }

  predicate Ours(c: Configuration) { c.parameters.Opaque? && c.parameters.driver == DRIVER_NAME }

  function Names(c: Configuration): seq<string> { if c.requests == [] then [""] else c.requests }

  predicate AppliesTo(c: Configuration, request: string) {
    Ours(c) && c.parameters.decoded.Decoded? && request in Names(c)
  }

  function ErrorIn(c: Configuration): Option<FoldError> {
    if c.parameters.NotOpaque? then Some(OnlyOpaqueSupported)
    else if c.parameters.driver != DRIVER_NAME then None
    else match c.parameters.decoded
         case Decoded(_) => None
         case Undecodable => Some(DecodeFailed)
         case NotAVfConfig => Some(WrongKind)
  }

  /** The settings of the configurations that apply to a request, lowest precedence first. */
  function Applicable(candidates: seq<Configuration>, request: string): seq<Settings> {
    if candidates == [] then []
    else
      var last := candidates[|candidates| - 1];
      Applicable(candidates[..|candidates| - 1], request) +
      if AppliesTo(last, request) then [last.parameters.decoded.settings] else []
  }

  /** The last non-empty value of a field. */
  function LastSet(values: seq<Settings>, field: Settings -> string): string {
    if values == [] then ""
    else Later(LastSet(values[..|values| - 1], field), field(values[|values| - 1]))
  }

  /** The documented meaning: per field, the last non-empty value; the rest stays default. */
  function Resolved(values: seq<Settings>): Settings {
    Settings(LastSet(values, Driver), false, LastSet(values, IfName), LastSet(values, NetAttachDefName), "")
  }

  function Driver(s: Settings): string { s.driver }
  function IfName(s: Settings): string { s.ifName }
  function NetAttachDefName(s: Settings): string { s.netAttachDefName }

  ghost predicate FirstError(candidates: seq<Configuration>, e: FoldError) {
    exists i :: 0 <= i < |candidates| && ErrorIn(candidates[i]) == Some(e) &&
      forall j :: 0 <= j < i ==> ErrorIn(candidates[j]) == None
  }

  ghost predicate NoError(candidates: seq<Configuration>) {
    forall i :: 0 <= i < |candidates| ==> ErrorIn(candidates[i]) == None
  }

  /** `m` holds, for every request some configuration names, its resolved settings. */
  ghost predicate Resolves(candidates: seq<Configuration>, m: map<string, Settings>) {
    && (forall r :: r in m <==> Applicable(candidates, r) != [])
    && (forall r :: r in m ==> m[r] == Resolved(Applicable(candidates, r)))
  }

  /** Folding succeeds. */
  ghost predicate Foldable(configs: seq<Configuration>) {
    (forall i :: 0 <= i < |configs| ==> configs[i].source != UnknownSource) && NoError(Candidates(configs))
  }

  function NamedRequests(candidates: seq<Configuration>): set<string> {
    set i, r | 0 <= i < |candidates| && r in Names(candidates[i]) :: r
  }

  /** The folded map. */
  function FoldedMap(configs: seq<Configuration>): map<string, Settings> {
    var candidates := Candidates(configs);
    map r | r in NamedRequests(candidates) && Applicable(candidates, r) != [] :: Resolved(Applicable(candidates, r))
  }

  lemma {:induction false} ApplicableIsNamed(candidates: seq<Configuration>, r: string)
    requires Applicable(candidates, r) != []
    ensures r in NamedRequests(candidates)
  {
    var n := |candidates| - 1;
    if AppliesTo(candidates[n], r) {
      assert r in Names(candidates[n]);
    } else {
      ApplicableIsNamed(candidates[..n], r);
      var i :| 0 <= i < n && r in Names(candidates[..n][i]);
      assert r in Names(candidates[i]);
    }
  }

  /** The folded map is the only one that resolves the configurations. */
  lemma ResolvesIsUnique(configs: seq<Configuration>, m: map<string, Settings>)
    ensures Resolves(Candidates(configs), m) <==> m == FoldedMap(configs)
  {
    var candidates := Candidates(configs);
    forall r: string | Applicable(candidates, r) != []
      ensures r in FoldedMap(configs)
    {
      ApplicableIsNamed(candidates, r);
    }
    assert Resolves(candidates, FoldedMap(configs));
    if Resolves(candidates, m) {
      assert m.Keys == FoldedMap(configs).Keys;
    }
  }

  // ----- The operation -----

  ghost function Values(m: map<string, VfConfig>): map<string, Settings>
    reads m.Values
  {
    map r | r in m :: m[r].Value()
  }

  /** Every request has a configuration object of its own. */
  ghost predicate Separate(m: map<string, VfConfig>) {
    forall r, q :: r in m && q in m && r != q ==> m[r] != m[q]
  }

  /** The settings per request after one more configuration for `requests`. */
  function Stepped(m: map<string, Settings>, requests: seq<string>, v: Settings): map<string, Settings> {
    map r | r in m.Keys + (set q | q in requests) ::
      if r in requests then Overridden(if r in m then m[r] else DEFAULTS, v) else m[r]
  }

  /** Overrides the entry of one request, creating it from the defaults when missing. */
  method OverrideRequest(m: map<string, VfConfig>, request: string, v: Settings) returns (m': map<string, VfConfig>)
    requires Separate(m)
    modifies m.Values
    ensures Separate(m') && fresh(m'.Values - m.Values)
    ensures Values(m') == old(Values(m))[request := Overridden(if request in m then old(Values(m))[request]
                                                               else DEFAULTS, v)]
  {
    var config;
    if request in m {
      config := m[request];
    } else {
      config := new VfConfig.Default();
    }
    config.Override(v);
    m' := m[request := config];
    assert forall r :: r in m && r != request ==> m[r].Value() == old(m[r].Value());
  }

  method OverrideRequests(m: map<string, VfConfig>, requests: seq<string>, v: Settings)
    returns (m': map<string, VfConfig>)
    requires Separate(m)
    modifies m.Values
    ensures Separate(m') && fresh(m'.Values - m.Values)
    ensures Values(m') == Stepped(old(Values(m)), requests, v)
  {
    m' := m;
    assert Stepped(Values(m), [], v) == Values(m);
    for i := 0 to |requests|
      invariant Separate(m') && fresh(m'.Values - m.Values)
      invariant Values(m') == Stepped(old(Values(m)), requests[..i], v)
    {
      ghost var before := m';
      m' := OverrideRequest(m', requests[i], v);
      SteppedOnce(old(Values(m)), requests, i, v);
    }
    assert requests[..|requests|] == requests;
  }

  /** Naming a request twice in one configuration has no further effect. */
  lemma SteppedOnce(m: map<string, Settings>, requests: seq<string>, i: nat, v: Settings)
    requires i < |requests|
    ensures var before := Stepped(m, requests[..i], v);
            Stepped(m, requests[..i + 1], v) ==
            before[requests[i] := Overridden(if requests[i] in before then before[requests[i]] else DEFAULTS, v)]
  {
    assert requests[..i + 1] == requests[..i] + [requests[i]];
  }

  method SplitBySource(configs: seq<Configuration>) returns (candidates: FoldResult<seq<Configuration>>)
    ensures candidates.FoldFailed? <==> exists i :: 0 <= i < |configs| && configs[i].source == UnknownSource
    ensures candidates.FoldFailed? ==> candidates.error == InvalidSource
    ensures candidates.Folded? ==> candidates.value == Candidates(configs)
  {
    var classConfigs, claimConfigs: seq<Configuration> := [], [];
    for i := 0 to |configs|
      invariant classConfigs == From(configs[..i], FromClass) && claimConfigs == From(configs[..i], FromClaim)
      invariant forall j :: 0 <= j < i ==> configs[j].source != UnknownSource
    {
      assert configs[..i + 1][..i] == configs[..i];
      match configs[i].source {
        case FromClass => classConfigs := classConfigs + [configs[i]];
        case FromClaim => claimConfigs := claimConfigs + [configs[i]];
        case UnknownSource => return FoldFailed(InvalidSource);
      }
    }
    assert configs[..|configs|] == configs;
    return Folded(classConfigs + claimConfigs);
  }

  /** One more configuration that has no error. */
  method FoldOne(m: map<string, VfConfig>, c: Configuration, ghost front: seq<Configuration>)
    returns (m': map<string, VfConfig>)
    requires Separate(m) && ErrorIn(c) == None && Resolves(front, Values(m))
    modifies m.Values
    ensures Separate(m') && fresh(m'.Values - m.Values) && Resolves(front + [c], Values(m'))
  {
    ghost var before := Values(m);
    if Ours(c) {
      m' := OverrideRequests(m, Names(c), c.parameters.decoded.settings);
      ResolvesOneMore(front, c, before);
    } else {
      m' := m;
      SkipsForeign(front, c, before);
    }
  }

  lemma FirstErrorAt(candidates: seq<Configuration>, i: nat)
    requires i < |candidates| && NoError(candidates[..i]) && ErrorIn(candidates[i]).Some?
    ensures FirstError(candidates, ErrorIn(candidates[i]).value) && !NoError(candidates)
  {
    assert forall j :: 0 <= j < i ==> candidates[..i][j] == candidates[j];
  }

  lemma NoErrorOneMore(candidates: seq<Configuration>, i: nat)
    requires i < |candidates| && NoError(candidates[..i]) && ErrorIn(candidates[i]) == None
    ensures NoError(candidates[..i + 1]) && candidates[..i] + [candidates[i]] == candidates[..i + 1]
  {
    assert forall j :: 0 <= j < i ==> candidates[..i][j] == candidates[j];
  }

  /** Folds configurations, lowest precedence first, and fails at the first bad one. */
  method FoldCandidates(candidates: seq<Configuration>) returns (result: FoldResult<map<string, Settings>>)
    ensures result.Folded? <==> NoError(candidates)
    ensures result.Folded? ==> Resolves(candidates, result.value)
    ensures result.FoldFailed? ==> FirstError(candidates, result.error)
  {
    var m: map<string, VfConfig> := map[];
    for i := 0 to |candidates|
      invariant Separate(m) && fresh(m.Values)
      invariant NoError(candidates[..i]) && Resolves(candidates[..i], Values(m))
    {
      var error := ErrorIn(candidates[i]);
      if error.Some? {
        FirstErrorAt(candidates, i);
        return FoldFailed(error.value);
      }
      NoErrorOneMore(candidates, i);
      m := FoldOne(m, candidates[i], candidates[..i]);
    }
    assert candidates[..|candidates|] == candidates;
    return Folded(map r | r in m :: m[r].Value());
  }

  method GetMapOfOpaqueDeviceConfigForDevice(configs: seq<Configuration>)
    returns (result: FoldResult<map<string, Settings>>)
    ensures result.Folded? <==> Foldable(configs)
    ensures result.Folded? ==> result.value == FoldedMap(configs) && Resolves(Candidates(configs), result.value)
    ensures result.Folded? ==> forall r :: r in result.value ==> SettingsByPosition(configs, r, result.value[r])
    ensures result.FoldFailed? ==>
              if exists i :: 0 <= i < |configs| && configs[i].source == UnknownSource
              then result.error == InvalidSource else FirstError(Candidates(configs), result.error)
  {
    var split := SplitBySource(configs);
    if split.FoldFailed? {
      return FoldFailed(InvalidSource);
    }
    result := FoldCandidates(split.value);
    if result.Folded? {
      ResolvesIsUnique(configs, result.value);
      forall r | r in result.value
        ensures SettingsByPosition(configs, r, result.value[r])
      {
        FoldedByPosition(configs, r);
      }
    }
  }

  lemma ApplicableLast(front: seq<Configuration>, c: Configuration, r: string)
    ensures Applicable(front + [c], r) ==
            Applicable(front, r) + if AppliesTo(c, r) then [c.parameters.decoded.settings] else []
  {
    assert (front + [c])[..|front|] == front;
  }

  lemma ResolvedLast(values: seq<Settings>, v: Settings)
    ensures Resolved(values + [v]) == Overridden(Resolved(values), v)
  {
    assert (values + [v])[..|values|] == values;
  }

  lemma ResolvesOneMore(front: seq<Configuration>, c: Configuration, m: map<string, Settings>)
    requires Resolves(front, m) && Ours(c) && c.parameters.decoded.Decoded?
    ensures Resolves(front + [c], Stepped(m, Names(c), c.parameters.decoded.settings))
  {
    var v := c.parameters.decoded.settings;
    var n := Stepped(m, Names(c), v);
    forall r: string
      ensures r in n <==> Applicable(front + [c], r) != []
      ensures r in n ==> n[r] == Resolved(Applicable(front + [c], r))
    {
      ApplicableLast(front, c, r);
      ResolvedLast(Applicable(front, r), v);
      assert Resolved([]) == DEFAULTS;
      assert Applicable(front, r) + [] == Applicable(front, r);
    }
  }

  lemma SkipsForeign(front: seq<Configuration>, c: Configuration, m: map<string, Settings>)
    requires Resolves(front, m) && !Ours(c)
    ensures Resolves(front + [c], m)
  {
    forall r: string
      ensures Applicable(front + [c], r) == Applicable(front, r)
    {
      ApplicableLast(front, c, r);
    }
  }

  // ----- What the folded map means -----

  /** The result does not depend on how class and claim entries interleave. */
  lemma InterleavingDoesNotMatter(a: seq<Configuration>, b: seq<Configuration>, m: map<string, Settings>,
                                  n: map<string, Settings>)
    requires From(a, FromClass) == From(b, FromClass) && From(a, FromClaim) == From(b, FromClaim)
    requires Resolves(Candidates(a), m) && Resolves(Candidates(b), n)
    ensures m == n
  {
    assert m.Keys == n.Keys;
  }

  /** A non-empty field comes from the last configuration that sets it. */
  lemma {:induction false} LastSetIsLast(values: seq<Settings>, field: Settings -> string, i: nat)
    requires i < |values| && field(values[i]) != ""
    requires forall j :: i < j < |values| ==> field(values[j]) == ""
    ensures LastSet(values, field) == field(values[i])
  {
    if i < |values| - 1 {
      LastSetIsLast(values[..|values| - 1], field, i);
    }
  }

  lemma {:induction false} NeverSetIsEmpty(values: seq<Settings>, field: Settings -> string)
    requires forall j :: 0 <= j < |values| ==> field(values[j]) == ""
    ensures LastSet(values, field) == ""
  {
    if values != [] {
      NeverSetIsEmpty(values[..|values| - 1], field);
    }
  }

  // ----- Precedence by position -----

  /** The configuration at position `i` comes from `source`, is for this driver and for the request,
      and sets the field. */
  predicate SetsAt(configs: seq<Configuration>, source: Source, request: string, field: Settings -> string, i: nat) {
    i < |configs| &&
    var c := configs[i];
    && c.source == source && (request in c.requests || (c.requests == [] && request == ""))
    && c.parameters.Opaque? && c.parameters.driver == DRIVER_NAME
    && c.parameters.decoded.Decoded? && field(c.parameters.decoded.settings) != ""
  }

  /** Position `i` is the last that does. */
  ghost predicate LastSetAt(configs: seq<Configuration>, source: Source, request: string, field: Settings -> string,
                            i: nat) {
    SetsAt(configs, source, request, field, i) && forall j: nat :: i < j ==> !SetsAt(configs, source, request, field, j)
  }

  function ValueAt(configs: seq<Configuration>, field: Settings -> string, i: nat): string
    requires i < |configs| && configs[i].parameters.Opaque? && configs[i].parameters.decoded.Decoded?
  {
    field(configs[i].parameters.decoded.settings)
  }

  lemma {:induction false} ApplicableConcat(a: seq<Configuration>, b: seq<Configuration>, r: string)
    ensures Applicable(a + b, r) == Applicable(a, r) + Applicable(b, r)
  {
    if b == [] {
      assert a + b == a;
    } else {
      var front, last := b[..|b| - 1], b[|b| - 1];
      assert a + b == (a + front) + [last] && b == front + [last];
      ApplicableConcat(a, front, r);
      ApplicableLast(a + front, last, r);
      ApplicableLast(front, last, r);
    }
  }

  lemma {:induction false} LastSetConcat(a: seq<Settings>, b: seq<Settings>, field: Settings -> string)
    ensures LastSet(a + b, field) == Later(LastSet(a, field), LastSet(b, field))
  {
    if b == [] {
      assert a + b == a;
    } else {
      assert (a + b)[..|a + b| - 1] == a + b[..|b| - 1];
      LastSetConcat(a, b[..|b| - 1], field);
    }
  }

  lemma ApplicableOfSource(front: seq<Configuration>, last: Configuration, source: Source, r: string)
    ensures Applicable(From(front + [last], source), r) ==
            Applicable(From(front, source), r) +
            if last.source == source && AppliesTo(last, r) then [last.parameters.decoded.settings] else []
  {
    assert (front + [last])[..|front|] == front;
    if last.source == source {
      ApplicableLast(From(front, source), last, r);
    } else {
      assert From(front + [last], source) == From(front, source);
    }
  }

  lemma LastSetLast(values: seq<Settings>, v: Settings, field: Settings -> string)
    ensures LastSet(values + [v], field) == Later(LastSet(values, field), field(v))
  {
    assert (values + [v])[..|values|] == values;
  }

  /** One more configuration changes the value of a field exactly when it sets it. */
  lemma OneMoreOfSource(front: seq<Configuration>, last: Configuration, source: Source, r: string,
                        field: Settings -> string)
    ensures var configs := front + [last];
            LastSet(Applicable(From(configs, source), r), field) ==
            if SetsAt(configs, source, r, field, |front|) then ValueAt(configs, field, |front|)
            else LastSet(Applicable(From(front, source), r), field)
  {
    var values := Applicable(From(front, source), r);
    ApplicableOfSource(front, last, source, r);
    assert (front + [last])[|front|] == last;
    if last.source == source && AppliesTo(last, r) {
      LastSetLast(values, last.parameters.decoded.settings, field);
    } else {
      assert values + [] == values;
    }
  }

  /** `value` is that of the last position of one source that sets the field, or empty without one. */
  ghost predicate LastGives(configs: seq<Configuration>, source: Source, r: string, field: Settings -> string,
                            value: string) {
    && (forall i: nat :: LastSetAt(configs, source, r, field, i) ==> value == ValueAt(configs, field, i))
    && ((forall i: nat :: !SetsAt(configs, source, r, field, i)) ==> value == "")
    && (value != "" ==> exists i: nat :: LastSetAt(configs, source, r, field, i))
  }

  lemma LastGivesStep(front: seq<Configuration>, last: Configuration, source: Source, r: string,
                      field: Settings -> string, value: string)
    requires LastGives(front, source, r, field, value)
    ensures var configs := front + [last];
            LastGives(configs, source, r, field, if SetsAt(configs, source, r, field, |front|)
                                                 then ValueAt(configs, field, |front|) else value)
  {
    var n, configs := |front|, front + [last];
    assert forall i: nat :: i < n ==> (SetsAt(configs, source, r, field, i) <==> SetsAt(front, source, r, field, i));
    if SetsAt(configs, source, r, field, n) {
      assert LastSetAt(configs, source, r, field, n);
    } else {
      assert forall i: nat :: SetsAt(configs, source, r, field, i) <==> SetsAt(front, source, r, field, i);
      assert forall i: nat :: LastSetAt(configs, source, r, field, i) <==> LastSetAt(front, source, r, field, i);
    }
  }

  /** Among the configurations of one source, the last position that sets a field gives its value. */
  lemma {:induction false} LastOfSource(configs: seq<Configuration>, source: Source, r: string,
                                        field: Settings -> string)
    ensures LastGives(configs, source, r, field, LastSet(Applicable(From(configs, source), r), field))
  {
    if configs != [] {
      var n := |configs| - 1;
      var front, last := configs[..n], configs[n];
      assert configs == front + [last];
      LastOfSource(front, source, r, field);
      OneMoreOfSource(front, last, source, r, field);
      LastGivesStep(front, last, source, r, field, LastSet(Applicable(From(front, source), r), field));
    }
  }

  /** Precedence, by position in the claim's list: a field of a request comes from the last claim
      configuration that sets it, without one from the last class configuration that sets it, and
      otherwise stays empty. */
  ghost predicate ByPosition(configs: seq<Configuration>, r: string, field: Settings -> string, value: string) {
    && (forall i: nat :: LastSetAt(configs, FromClaim, r, field, i) ==> value == ValueAt(configs, field, i))
    && ((forall i: nat :: !SetsAt(configs, FromClaim, r, field, i)) ==>
          forall i: nat :: LastSetAt(configs, FromClass, r, field, i) ==> value == ValueAt(configs, field, i))
    && ((forall i: nat :: !SetsAt(configs, FromClaim, r, field, i) && !SetsAt(configs, FromClass, r, field, i)) ==>
          value == "")
  }

  lemma ClaimBeatsClass(configs: seq<Configuration>, r: string, field: Settings -> string, value: string)
    requires value == LastSet(Applicable(Candidates(configs), r), field)
    ensures ByPosition(configs, r, field, value)
  {
    var class', claim := From(configs, FromClass), From(configs, FromClaim);
    ApplicableConcat(class', claim, r);
    LastSetConcat(Applicable(class', r), Applicable(claim, r), field);
    LastOfSource(configs, FromClass, r, field);
    LastOfSource(configs, FromClaim, r, field);
  }

  /** All five fields of the settings of a request. */
  ghost predicate SettingsByPosition(configs: seq<Configuration>, r: string, v: Settings) {
    && ByPosition(configs, r, (s: Settings) => s.driver, v.driver)
    && ByPosition(configs, r, (s: Settings) => s.ifName, v.ifName)
    && ByPosition(configs, r, (s: Settings) => s.netAttachDefName, v.netAttachDefName)
    && !v.addVhostMount && v.netAttachDefNamespace == ""
  }

  lemma FoldedByPosition(configs: seq<Configuration>, r: string)
    requires r in FoldedMap(configs)
    ensures SettingsByPosition(configs, r, FoldedMap(configs)[r])
  {
    var v, values := FoldedMap(configs)[r], Applicable(Candidates(configs), r);
    SameField(values, Driver, (s: Settings) => s.driver);
    SameField(values, IfName, (s: Settings) => s.ifName);
    SameField(values, NetAttachDefName, (s: Settings) => s.netAttachDefName);
    ClaimBeatsClass(configs, r, (s: Settings) => s.driver, v.driver);
    ClaimBeatsClass(configs, r, (s: Settings) => s.ifName, v.ifName);
    ClaimBeatsClass(configs, r, (s: Settings) => s.netAttachDefName, v.netAttachDefName);
  }

  lemma {:induction false} SameField(values: seq<Settings>, f: Settings -> string, g: Settings -> string)
    requires forall s: Settings :: f(s) == g(s)
    ensures LastSet(values, f) == LastSet(values, g)
  {
    if values != [] {
      SameField(values[..|values| - 1], f, g);
    }
  }

  lemma {:induction false} ApplicableMembers(candidates: seq<Configuration>, r: string)
    ensures Applicable(candidates, r) != [] <==> exists c :: c in candidates && AppliesTo(c, r)
  {
    if candidates != [] {
      var n := |candidates| - 1;
      ApplicableMembers(candidates[..n], r);
      assert candidates == candidates[..n] + [candidates[n]];
    }
  }

  lemma {:induction false} FromMembers(configs: seq<Configuration>, source: Source, c: Configuration)
    ensures c in From(configs, source) <==> c in configs && c.source == source
  {
    if configs != [] {
      FromMembers(configs[..|configs| - 1], source, c);
      assert configs == configs[..|configs| - 1] + [configs[|configs| - 1]];
    }
  }

  lemma CandidatesMembers(configs: seq<Configuration>, c: Configuration)
    ensures c in Candidates(configs) <==> c in configs && c.source != UnknownSource
  {
    FromMembers(configs, FromClass, c);
    FromMembers(configs, FromClaim, c);
  }

  /** The configuration is from this driver's class or claim and for the request. */
  predicate IsFor(c: Configuration, request: string) {
    && c.source != UnknownSource && (request in c.requests || (c.requests == [] && request == ""))
    && c.parameters.Opaque? && c.parameters.driver == DRIVER_NAME && c.parameters.decoded.Decoded?
  }

  /** The folded map has exactly the requests that some configuration of this driver is for. */
  lemma FoldedRequests(configs: seq<Configuration>, r: string)
    ensures r in FoldedMap(configs) <==> exists c :: c in configs && IsFor(c, r)
  {
    var candidates := Candidates(configs);
    forall c: Configuration
      ensures c in candidates && AppliesTo(c, r) <==> c in configs && IsFor(c, r)
    {
      CandidatesMembers(configs, c);
    }
    ApplicableMembers(candidates, r);
    ResolvesIsUnique(configs, FoldedMap(configs));
  }

  /** Folding succeeds exactly when every source is known and every configuration is opaque, and those
      of this driver decode to its kind. */
  lemma FoldableExactly(configs: seq<Configuration>)
    ensures Foldable(configs) <==>
            forall c :: c in configs ==>
              c.source != UnknownSource && c.parameters.Opaque? &&
              (c.parameters.driver == DRIVER_NAME ==> c.parameters.decoded.Decoded?)
  {
    var candidates := Candidates(configs);
    forall c: Configuration
      ensures c in candidates <==> c in configs && c.source != UnknownSource
    {
      CandidatesMembers(configs, c);
    }
    assert NoError(candidates) <==> forall c :: c in candidates ==> ErrorIn(c) == None;
    assert (forall i :: 0 <= i < |configs| ==> configs[i].source != UnknownSource) <==>
           forall c :: c in configs ==> c.source != UnknownSource;
  }

  /** A class asks for one driver and the claim for another: the claim's wins. */
  lemma ClaimBeatsClassExample(asked: Configuration, given: Configuration, m: map<string, Settings>)
    requires asked == Configuration(FromClaim, ["vf"], Opaque(DRIVER_NAME, Decoded(DEFAULTS.(driver := "vfio-pci"))))
    requires given == Configuration(FromClass, ["vf"], Opaque(DRIVER_NAME, Decoded(DEFAULTS.(driver := "ixgbevf"))))
    requires m == FoldedMap([asked, given])
    ensures "vf" in m && m["vf"].driver == "vfio-pci"
  {
    var configs := [asked, given];
    FoldedRequests(configs, "vf");
    assert asked in configs && IsFor(asked, "vf");
    FoldedByPosition(configs, "vf");
    assert LastSetAt(configs, FromClaim, "vf", (s: Settings) => s.driver, 0);
  }

  /** The configuration that prepare uses for a request. */
  function Effective(m: map<string, Settings>, request: string): Settings {
    if request in m then m[request] else if "" in m then m[""] else DEFAULTS
  }

  /** A configuration without requests is used for a request exactly when no configuration
      names that request; it is never combined with one that does. */
  lemma CatchAllIsHidden(candidates: seq<Configuration>, m: map<string, Settings>, request: string)
    requires Resolves(candidates, m)
    ensures Effective(m, request) ==
            Resolved(if Applicable(candidates, request) != [] then Applicable(candidates, request)
                     else Applicable(candidates, ""))
  {
    if request !in m && "" !in m {
      assert Resolved([]) == DEFAULTS;
    }
  }

  /** So a driver asked for on all requests is lost on a request that is named elsewhere. */
  lemma CatchAllIsHiddenExample()
    ensures var all := Configuration(FromClaim, [], Opaque(DRIVER_NAME, Decoded(DEFAULTS.(driver := "vfio-pci"))));
            var one := Configuration(FromClaim, ["vf"], Opaque(DRIVER_NAME, Decoded(DEFAULTS.(ifName := "net1"))));
            forall m :: Resolves([all, one], m) ==> Effective(m, "vf").driver == ""
  {
    var all := Configuration(FromClaim, [], Opaque(DRIVER_NAME, Decoded(DEFAULTS.(driver := "vfio-pci"))));
    var one := Configuration(FromClaim, ["vf"], Opaque(DRIVER_NAME, Decoded(DEFAULTS.(ifName := "net1"))));
    var v := DEFAULTS.(ifName := "net1");
    assert [all] + [one] == [all, one] && [] + [all] == [all];
    ApplicableLast([all], one, "vf");
    ApplicableLast([], all, "vf");
    assert Applicable([all, one], "vf") == [v];
    ResolvedLast([], v);
    assert [] + [v] == [v];
  }
}
