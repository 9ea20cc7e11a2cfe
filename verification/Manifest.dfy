// Skill manifests, what makes one valid, and the registry of valid ones.
module Manifest {
  import opened Types
  import opened Text
  import opened Policy
  import J = RedactionJson

  datatype SkillManifest = SkillManifest(
    id: SkillId,
    name: string,
    version: string,
    description: string,
    permissions: seq<SkillPermission>,
    risk: ActionRisk,
    approvalPolicy: ApprovalPolicy,
    inputHint: Option<string>,
    outputHint: Option<string>,
    inputSchema: J.Json,
    publisher: Option<string>,
    signature: Option<string>)
  {
    predicate IsExternal() { publisher.Some? && Trim(publisher.value) != "" }
  }

  // The secret detector, and whether a trusted key of the publisher has signed
  // the manifest.
  datatype Checks = Checks(detect: string -> bool, signed: SkillManifest -> bool)

  // ----- secrets in the input schema -----

  // One text of a JSON value: a string, or an object's key, and where it stands.
  datatype Node = Node(path: string, text: string)

  function KeyPath(path: string, key: string): string { path + "." + key }

  function ItemPath(path: string, i: nat): string { path + "[" + Show(i) + "]" }

  // Every text of the value in document order; a key comes before its value.
  function Nodes(v: J.Json, path: string): seq<Node>
    decreases v
  {
    match v
    case Str(s) => [Node(path, s)]
    case Obj(fields) => ChildNodes(v, |fields|, path)
    case Arr(items) => ChildNodes(v, |items|, path)
    case _ => []
  }

  function ChildNodes(v: J.Json, k: nat, path: string): seq<Node>
    requires (v.Arr? && k <= |v.items|) || (v.Obj? && k <= |v.fields|)
    decreases v, k
  {
    if k == 0 then []
    else if v.Arr? then ChildNodes(v, k - 1, path) + Nodes(v.items[k - 1], ItemPath(path, k - 1))
    else
      var f := v.fields[k - 1];
      ChildNodes(v, k - 1, path)
        + ([Node(KeyPath(path, f.key) + " (avain)", f.key)] + Nodes(f.value, KeyPath(path, f.key)))
  }

  // The path of the first node that trips the detector.
  function FirstHit(nodes: seq<Node>, detect: string -> bool): Option<string> {
    if nodes == [] then None
    else if detect(nodes[0].text) then Some(nodes[0].path)
    else FirstHit(nodes[1..], detect)
  }

  function OrElse(a: Option<string>, b: Option<string>): Option<string> { if a.Some? then a else b }

  lemma {:induction false} FirstHitConcat(a: seq<Node>, b: seq<Node>, detect: string -> bool)
    ensures FirstHit(a + b, detect) == OrElse(FirstHit(a, detect), FirstHit(b, detect))
  {
    if a == [] {
      assert a + b == b;
    } else {
      assert (a + b)[1..] == a[1..] + b;
      FirstHitConcat(a[1..], b, detect);
    }
  }

  // It exists exactly when some node trips the detector, and no earlier one does.
  lemma {:induction false} FirstHitIsFirst(nodes: seq<Node>, detect: string -> bool)
    ensures FirstHit(nodes, detect).Some? <==> exists i :: 0 <= i < |nodes| && detect(nodes[i].text)
    ensures FirstHit(nodes, detect).Some? ==>
      exists i :: 0 <= i < |nodes| && detect(nodes[i].text) && FirstHit(nodes, detect) == Some(nodes[i].path)
                  && forall j :: 0 <= j < i ==> !detect(nodes[j].text)
  {
    if nodes != [] && !detect(nodes[0].text) {
      var rest := nodes[1..];
      FirstHitIsFirst(rest, detect);
      assert forall i :: 0 <= i < |rest| ==> rest[i] == nodes[i + 1];
      if FirstHit(rest, detect).Some? {
        var i :| 0 <= i < |rest| && detect(rest[i].text) && FirstHit(rest, detect) == Some(rest[i].path)
                 && forall j :: 0 <= j < i ==> !detect(rest[j].text);
        assert detect(nodes[i + 1].text) && forall j :: 0 <= j < i + 1 ==> !detect(nodes[j].text);
      }
    }
  }

  // The walk as the code does it: depth first, stopping at the first hit.
  function FirstSecretInJson(v: J.Json, path: string, detect: string -> bool): Option<string>
    decreases v
  {
    match v
    case Str(s) => if detect(s) then Some(path) else None
    case Obj(fields) => FirstSecretIn(v, 0, path, detect)
    case Arr(items) => FirstSecretIn(v, 0, path, detect)
    case _ => None
  }

  function Width(v: J.Json): nat
    requires v.Arr? || v.Obj?
  {
    if v.Arr? then |v.items| else |v.fields|
  }

  // The first hit among the children from position i on.
  function FirstSecretIn(v: J.Json, i: nat, path: string, detect: string -> bool): Option<string>
    requires (v.Arr? || v.Obj?) && i <= Width(v)
    decreases v, Width(v) - i
  {
    if i == Width(v) then None
    else
      var here :=
        if v.Arr? then FirstSecretInJson(v.items[i], ItemPath(path, i), detect)
        else if detect(v.fields[i].key) then Some(KeyPath(path, v.fields[i].key) + " (avain)")
        else FirstSecretInJson(v.fields[i].value, KeyPath(path, v.fields[i].key), detect);
      if here.Some? then here else FirstSecretIn(v, i + 1, path, detect)
  }

  // The walk finds the first node in document order that trips the detector.
  lemma {:induction false} WalkFindsFirst(v: J.Json, path: string, detect: string -> bool)
    ensures FirstSecretInJson(v, path, detect) == FirstHit(Nodes(v, path), detect)
    decreases v
  {
    match v {
      case Str(s) => assert Nodes(v, path)[1..] == [];
      case Obj(fields) => WalkChildren(v, 0, path, detect);
      case Arr(items) => WalkChildren(v, 0, path, detect);
      case _ =>
    }
  }

  // Children before position i held no hit, so the answer so far is the rest's.
  lemma {:induction false} WalkChildren(v: J.Json, i: nat, path: string, detect: string -> bool)
    requires (v.Arr? || v.Obj?) && i <= Width(v)
    ensures FirstHit(ChildNodes(v, Width(v), path), detect)
            == OrElse(FirstHit(ChildNodes(v, i, path), detect), FirstSecretIn(v, i, path, detect))
    decreases v, Width(v) - i
  {
    if i < Width(v) {
      WalkChildren(v, i + 1, path, detect);
      ChildFindsFirst(v, i, path, detect);
    }
  }

  lemma {:induction false} ChildFindsFirst(v: J.Json, i: nat, path: string, detect: string -> bool)
    requires (v.Arr? || v.Obj?) && i < Width(v)
    ensures OrElse(FirstHit(ChildNodes(v, i + 1, path), detect), FirstSecretIn(v, i + 1, path, detect))
         == OrElse(FirstHit(ChildNodes(v, i, path), detect), FirstSecretIn(v, i, path, detect))
    decreases v, 0
  {
    if v.Arr? {
      WalkFindsFirst(v.items[i], ItemPath(path, i), detect);
      FirstHitConcat(ChildNodes(v, i, path), Nodes(v.items[i], ItemPath(path, i)), detect);
    } else {
      var f := v.fields[i];
      var key := [Node(KeyPath(path, f.key) + " (avain)", f.key)];
      WalkFindsFirst(f.value, KeyPath(path, f.key), detect);
      FirstHitConcat(ChildNodes(v, i, path), key + Nodes(f.value, KeyPath(path, f.key)), detect);
      FirstHitConcat(key, Nodes(f.value, KeyPath(path, f.key)), detect);
    }
  }

  // Some string or key inside the value, at any depth, trips the detector.
  ghost predicate TripsInside(v: J.Json, detect: string -> bool)
    decreases v
  {
    match v
    case Str(s) => detect(s)
    case Arr(items) => exists k :: 0 <= k < |items| && TripsInside(items[k], detect)
    case Obj(fields) =>
      exists k :: 0 <= k < |fields| && (detect(fields[k].key) || TripsInside(fields[k].value, detect))
    case _ => false
  }

  // The walk misses nothing.
  lemma {:induction false} WalkMissesNothing(v: J.Json, path: string, detect: string -> bool)
    ensures FirstSecretInJson(v, path, detect).Some? <==> TripsInside(v, detect)
    decreases v, 1, 0
  {
    match v
    case Arr(items) =>
      ChildrenMissNothing(v, 0, path, detect);
      forall k | 0 <= k < |items| ensures ChildTrips(v, k, detect) <==> TripsInside(items[k], detect) {
      }
      assert (exists k :: 0 <= k < |items| && ChildTrips(v, k, detect))
        <==> exists k :: 0 <= k < |items| && TripsInside(items[k], detect);
    case Obj(fields) =>
      ChildrenMissNothing(v, 0, path, detect);
      forall k | 0 <= k < |fields|
        ensures ChildTrips(v, k, detect) <==> detect(fields[k].key) || TripsInside(fields[k].value, detect)
      {
      }
      assert (exists k :: 0 <= k < |fields| && ChildTrips(v, k, detect))
        <==> exists k :: 0 <= k < |fields| && (detect(fields[k].key) || TripsInside(fields[k].value, detect));
    case _ =>
  }

  ghost predicate ChildTrips(v: J.Json, k: nat, detect: string -> bool)
    requires (v.Arr? || v.Obj?) && k < Width(v)
  {
    if v.Arr? then TripsInside(v.items[k], detect)
    else detect(v.fields[k].key) || TripsInside(v.fields[k].value, detect)
  }

  lemma {:induction false} ChildrenMissNothing(v: J.Json, i: nat, path: string, detect: string -> bool)
    requires (v.Arr? || v.Obj?) && i <= Width(v)
    ensures FirstSecretIn(v, i, path, detect).Some? <==> exists k :: i <= k < Width(v) && ChildTrips(v, k, detect)
    decreases v, 0, Width(v) - i
  {
    if i < Width(v) {
      ChildrenMissNothing(v, i + 1, path, detect);
      if v.Arr? {
        WalkMissesNothing(v.items[i], ItemPath(path, i), detect);
      } else {
        WalkMissesNothing(v.fields[i].value, KeyPath(path, v.fields[i].key), detect);
      }
      assert ChildTrips(v, i, detect) || FirstSecretIn(v, i, path, detect) == FirstSecretIn(v, i + 1, path, detect);
    }
  }

  // ----- validation -----

  // The flat text fields.  The signature is not one of them: its hex digits
  // look like a secret.
  datatype Label = Name | Version | Description | InputHint | OutputHint | Publisher {
    function Position(): nat {
      match this
      case Name => 0
      case Version => 1
      case Description => 2
      case InputHint => 3
      case OutputHint => 4
      case Publisher => 5
    }

    function Shown(): string {
      match this
      case Name => "name"
      case Version => "version"
      case Description => "description"
      case InputHint => "input_hint"
      case OutputHint => "output_hint"
      case Publisher => "publisher"
    }
  }

  datatype TextField = TextField(kind: Label, text: string)

  function TextOf(m: SkillManifest, l: Label): Option<string> {
    match l
    case Name => Some(m.name)
    case Version => Some(m.version)
    case Description => Some(m.description)
    case InputHint => m.inputHint
    case OutputHint => m.outputHint
    case Publisher => m.publisher
  }

  predicate Trips(m: SkillManifest, l: Label, detect: string -> bool) {
    TextOf(m, l).Some? && detect(TextOf(m, l).value)
  }

  // The first field, in declaration order, that trips the detector.
  function FirstSecretField(m: SkillManifest, detect: string -> bool): Option<Label> {
    if Trips(m, Name, detect) then Some(Name)
    else if Trips(m, Version, detect) then Some(Version)
    else if Trips(m, Description, detect) then Some(Description)
    else if Trips(m, InputHint, detect) then Some(InputHint)
    else if Trips(m, OutputHint, detect) then Some(OutputHint)
    else if Trips(m, Publisher, detect) then Some(Publisher)
    else None
  }

  // In declaration order, none twice.
  predicate InOrder(fields: seq<TextField>) {
    forall i, j :: 0 <= i < j < |fields| ==> fields[i].kind.Position() < fields[j].kind.Position()
  }

  // Nothing is missed and nothing is added: the list holds a text under a label
  // exactly when the manifest has it there.
  method CollectTextFields(m: SkillManifest) returns (fields: seq<TextField>)
    ensures InOrder(fields)
    ensures forall l: Label, s: string :: TextField(l, s) in fields <==> TextOf(m, l) == Some(s)
  {
    fields := [TextField(Name, m.name), TextField(Version, m.version), TextField(Description, m.description)];
    if m.inputHint.Some? { fields := fields + [TextField(InputHint, m.inputHint.value)]; }
    if m.outputHint.Some? { fields := fields + [TextField(OutputHint, m.outputHint.value)]; }
    if m.publisher.Some? { fields := fields + [TextField(Publisher, m.publisher.value)]; }
  }

  // In a complete ordered list, the first text that trips the detector is the
  // manifest's first.
  lemma FirstInList(m: SkillManifest, fields: seq<TextField>, k: nat, detect: string -> bool)
    requires InOrder(fields) && k <= |fields|
    requires forall l: Label, s: string :: TextField(l, s) in fields <==> TextOf(m, l) == Some(s)
    requires forall i :: 0 <= i < k ==> !detect(fields[i].text)
    ensures k < |fields| && detect(fields[k].text) ==> FirstSecretField(m, detect) == Some(fields[k].kind)
    ensures k == |fields| ==> FirstSecretField(m, detect) == None
  {
    hide FirstSecretField;
    forall l: Label | Trips(m, l, detect) ensures k < |fields| && fields[k].kind.Position() <= l.Position() {
      var f := TextField(l, TextOf(m, l).value);
      assert f in fields;
      var i :| 0 <= i < |fields| && fields[i] == f;
      assert i >= k;
    }
    if k < |fields| {
      assert TextField(fields[k].kind, fields[k].text) in fields;
      if detect(fields[k].text) { LeastIsFirst(m, fields[k].kind, detect); }
    } else {
      assert forall l: Label :: !Trips(m, l, detect);
      NoneTrips(m, detect);
    }
  }

  lemma LeastIsFirst(m: SkillManifest, l: Label, detect: string -> bool)
    requires Trips(m, l, detect) && forall o: Label :: Trips(m, o, detect) ==> l.Position() <= o.Position()
    ensures FirstSecretField(m, detect) == Some(l)
  {
    hide Trips;
    match FirstSecretField(m, detect)
    case None =>
    case Some(first) => assert first.Position() >= l.Position();
  }

  lemma NoneTrips(m: SkillManifest, detect: string -> bool)
    ensures FirstSecretField(m, detect).None? <==> forall l: Label :: !Trips(m, l, detect)
  {
    hide Trips;
    assert FirstSecretField(m, detect).Some? ==> Trips(m, FirstSecretField(m, detect).value, detect);
    forall l: Label | FirstSecretField(m, detect).None? ensures !Trips(m, l, detect) {
      match l {
        case Name => case Version => case Description =>
        case InputHint => case OutputHint => case Publisher =>
      }
    }
  }

  // A permission's own conflict with the risk class.
  function PermissionError(m: SkillManifest, p: SkillPermission): Option<ActionError> {
    if p.RequiresSpendMoneyRisk() && !m.risk.SpendMoneyRisk? then Some(ManifestValidation("spend_money"))
    else if p.ForbidsAutoRunRisk() && m.risk.IsAutoRunnableClass() then Some(ManifestValidation("auto-run"))
    else None
  }

  function FirstPermissionError(m: SkillManifest, ps: seq<SkillPermission>): Option<ActionError> {
    if ps == [] then None
    else if PermissionError(m, ps[0]).Some? then PermissionError(m, ps[0])
    else FirstPermissionError(m, ps[1..])
  }

  function VerifyExternalSignature(m: SkillManifest, checks: Checks): Result<(), ActionError> {
    if !m.IsExternal() then Ok(())
    else if m.signature.None? || Trim(m.signature.value) == "" then Err(SignatureInvalid("missing"))
    else if !checks.signed(m) then Err(SignatureInvalid("untrusted"))
    else Ok(())
  }

  // The checks in order; the first that fails names the error.
  function Validate(m: SkillManifest, checks: Checks): Result<(), ActionError> {
    if m.id == 0 then Err(ManifestValidation("id"))
    else if Trim(m.name) == "" then Err(ManifestValidation("name"))
    else if Trim(m.version) == "" then Err(ManifestValidation("version"))
    else if !m.inputSchema.Obj? then Err(ManifestValidation("input_schema"))
    else if FirstSecretField(m, checks.detect).Some? then
      Err(SecretInManifest(FirstSecretField(m, checks.detect).value.Shown()))
    else
      match FirstSecretInJson(m.inputSchema, "input_schema", checks.detect)
      case Some(path) => Err(SecretInManifest(path))
      case None =>
        if WriteExternal in m.permissions && !m.approvalPolicy.CanRequireApproval() then
          Err(ManifestValidation("write_external"))
        else
          match FirstPermissionError(m, m.permissions)
          case Some(e) => Err(e)
          case None => VerifyExternalSignature(m, checks)
  }

  // The same checks one statement at a time, with a loop over the text fields
  // and one over the permissions.
  method ValidateManifest(m: SkillManifest, checks: Checks) returns (r: Result<(), ActionError>)
    ensures r == Validate(m, checks)
  {
    hide FirstSecretField, FirstSecretInJson, Trim, VerifyExternalSignature, TextOf, PermissionError;
    if m.id == 0 { return Err(ManifestValidation("id")); }
    if Trim(m.name) == "" { return Err(ManifestValidation("name")); }
    if Trim(m.version) == "" { return Err(ManifestValidation("version")); }
    if !m.inputSchema.Obj? { return Err(ManifestValidation("input_schema")); }
    var fields := CollectTextFields(m);
    for k := 0 to |fields|
      invariant forall i :: 0 <= i < k ==> !checks.detect(fields[i].text)
    {
      FirstInList(m, fields, k, checks.detect);
      if checks.detect(fields[k].text) { return Err(SecretInManifest(fields[k].kind.Shown())); }
    }
    FirstInList(m, fields, |fields|, checks.detect);
    var secretPath := FirstSecretInJson(m.inputSchema, "input_schema", checks.detect);
    if secretPath.Some? { return Err(SecretInManifest(secretPath.value)); }
    if WriteExternal in m.permissions && !m.approvalPolicy.CanRequireApproval() {
      return Err(ManifestValidation("write_external"));
    }
    for k := 0 to |m.permissions|
      invariant FirstPermissionError(m, m.permissions) == FirstPermissionError(m, m.permissions[k..])
    {
      assert m.permissions[k..][1..] == m.permissions[k + 1..];
      var e := PermissionError(m, m.permissions[k]);
      if e.Some? { return Err(e.value); }
    }
    r := VerifyExternalSignature(m, checks);
  }

  lemma {:induction false} PermissionsAllChecked(m: SkillManifest, ps: seq<SkillPermission>)
    ensures FirstPermissionError(m, ps).None? <==> forall i :: 0 <= i < |ps| ==> PermissionError(m, ps[i]).None?
  {
    if ps != [] {
      PermissionsAllChecked(m, ps[1..]);
      assert forall i :: 1 <= i < |ps| ==> ps[i] == ps[1..][i - 1];
    }
  }

  // No text of the manifest other than its signature trips the detector.
  ghost predicate SecretFree(m: SkillManifest, detect: string -> bool) {
    && !detect(m.name) && !detect(m.version) && !detect(m.description)
    && (m.inputHint.Some? ==> !detect(m.inputHint.value)) && (m.outputHint.Some? ==> !detect(m.outputHint.value))
    && (m.publisher.Some? ==> !detect(m.publisher.value))
    && !TripsInside(m.inputSchema, detect)
  }

  lemma NoFieldTrips(m: SkillManifest, detect: string -> bool)
    ensures FirstSecretField(m, detect).None? && !TripsInside(m.inputSchema, detect) <==> SecretFree(m, detect)
  {
  }

  // An external manifest names a publisher; it must carry a signature that a
  // trusted key of that publisher made.
  predicate SignedIfExternal(m: SkillManifest, checks: Checks) {
    m.publisher.Some? && Trim(m.publisher.value) != "" ==>
      m.signature.Some? && Trim(m.signature.value) != "" && checks.signed(m)
  }

  // Permission and risk class agree.
  predicate RiskIsHonest(m: SkillManifest) {
    && (SpendMoney in m.permissions ==> m.risk.SpendMoneyRisk?)
    && (WriteExternal in m.permissions ==> !m.risk.IsAutoRunnableClass() && m.approvalPolicy.CanRequireApproval())
  }

  lemma HonestRisk(m: SkillManifest)
    ensures (forall i :: 0 <= i < |m.permissions| ==> PermissionError(m, m.permissions[i]).None?)
         && (WriteExternal in m.permissions ==> m.approvalPolicy.CanRequireApproval())
       <==> RiskIsHonest(m)
  {
    if RiskIsHonest(m) {
      forall i | 0 <= i < |m.permissions| ensures PermissionError(m, m.permissions[i]).None? {
        assert m.permissions[i] in m.permissions;
      }
    }
  }

  // A manifest is accepted exactly when it is named, versioned, has an object
  // schema, carries no secret, states an honest risk, and is signed if external.
  lemma ValidExactly(m: SkillManifest, checks: Checks)
    ensures Validate(m, checks).Ok? <==>
      && m.id != 0 && Trim(m.name) != "" && Trim(m.version) != "" && m.inputSchema.Obj?
      && SecretFree(m, checks.detect) && RiskIsHonest(m) && SignedIfExternal(m, checks)
  {
    hide FirstSecretInJson, FirstPermissionError, Trim, RiskIsHonest, PermissionError, FirstSecretField, SecretFree,
      TripsInside;
    NoFieldTrips(m, checks.detect);
    WalkMissesNothing(m.inputSchema, "input_schema", checks.detect);
    PermissionsAllChecked(m, m.permissions);
    HonestRisk(m);
  }

  // Money and external writes never run without a human, whatever risk class
  // and approval policy the manifest names.
  lemma HighRiskNeedsApproval(m: SkillManifest, checks: Checks)
    requires Validate(m, checks).Ok? && (SpendMoney in m.permissions || WriteExternal in m.permissions)
    ensures RequiresApproval(m.risk, m.approvalPolicy)
  {
    ValidExactly(m, checks);
    AutoRunExactly(m.risk, m.approvalPolicy);
  }

  // ----- the registry -----

  type Registered = map<SkillId, SkillManifest>

  function RegisterIn(r: Registered, m: SkillManifest, checks: Checks): Result<Registered, ActionError> {
    match Validate(m, checks)
    case Err(e) => Err(e)
    case Ok(_) => if m.id in r then Err(ManifestValidation("duplicate")) else Ok(r[m.id := m])
  }

  function RegisterAll(r: Registered, ms: seq<SkillManifest>, checks: Checks): Registered
    decreases |ms|
  {
    if ms == [] then r
    else RegisterAll(match RegisterIn(r, ms[0], checks) case Ok(r') => r' case Err(_) => r, ms[1..], checks)
  }

  ghost predicate AllValid(r: Registered, checks: Checks) {
    forall id :: id in r ==> r[id].id == id && Validate(r[id], checks).Ok?
  }

  // In every reachable registry: what is stored is valid, was never replaced,
  // and if it may spend money or write externally it needs approval.
  lemma {:induction false} RegistryStaysSafe(r: Registered, ms: seq<SkillManifest>, checks: Checks, id: SkillId)
    requires AllValid(r, checks)
    ensures var s := RegisterAll(r, ms, checks);
            && AllValid(s, checks)
            && (id in r ==> id in s && s[id] == r[id])
            && (id in s && (SpendMoney in s[id].permissions || WriteExternal in s[id].permissions) ==>
                  RequiresApproval(s[id].risk, s[id].approvalPolicy))
    decreases |ms|
  {
    hide Validate;
    if ms == [] {
      if id in r && (SpendMoney in r[id].permissions || WriteExternal in r[id].permissions) {
        HighRiskNeedsApproval(r[id], checks);
      }
    } else {
      RegistryStaysSafe(match RegisterIn(r, ms[0], checks) case Ok(r') => r' case Err(_) => r, ms[1..], checks, id);
    }
  }

  class SkillRegistry {
    var inner: Registered
    const checks: Checks

    ghost predicate Valid() reads this { AllValid(inner, checks) }

    constructor (checks: Checks)
      ensures Valid() && inner == map[] && this.checks == checks
    {
      inner := map[];
      this.checks := checks;
    }

    method Register(m: SkillManifest) returns (r: Result<(), ActionError>)
      requires Valid()
      modifies this
      ensures Valid()
      ensures match RegisterIn(old(inner), m, checks)
              case Ok(stored) => r == Ok(()) && inner == stored
              case Err(e) => r == Err(e) && inner == old(inner)
    {
      hide Validate;
      r := ValidateManifest(m, checks);
      if r.Err? { return; }
      if m.id in inner { return Err(ManifestValidation("duplicate")); }
      inner := inner[m.id := m];
      r := Ok(());
    }
  }
}
