// Risk classes, permissions and the approval requirement derived from them.
module Policy {

  datatype ActionRisk = ReadOnly | WriteLocal | WriteExternalRisk | Irreversible | SpendMoneyRisk | SendMessageRisk
    | ExecuteCodeRisk
  {
    predicate IsAutoRunnableClass() { ReadOnly? || WriteLocal? }
  }

  datatype SkillPermission = ReadFiles | WriteLocalFiles | NetworkRead | SendMessage | ExecuteCode | SpendMoney
    | WriteExternal
  {
    predicate ForbidsAutoRunRisk() { SpendMoney? || WriteExternal? }

    predicate RequiresSpendMoneyRisk() { SpendMoney? }
  }

  datatype ApprovalPolicy = AutoIfReadOnly | RequireApproval | AlwaysRequireApproval
  {
    predicate CanRequireApproval() { RequireApproval? || AlwaysRequireApproval? }
  }

  // Whether a human must approve before execution.
  predicate RequiresApproval(risk: ActionRisk, policy: ApprovalPolicy) {
    if risk.SpendMoneyRisk? || risk.Irreversible? then true
    else if risk.ExecuteCodeRisk? || risk.SendMessageRisk? then true
    else if policy.AlwaysRequireApproval? then true
    else
      match (risk, policy)
      case (ReadOnly, _) => false
      case (WriteLocal, RequireApproval) => false
      case (_, _) => true
  }

  // Only the two auto-runnable classes ever run unapproved, each exactly under
  // the policies that admit it.
  lemma AutoRunExactly(risk: ActionRisk, policy: ApprovalPolicy)
    ensures !RequiresApproval(risk, policy)
       <==> (risk.ReadOnly? && !policy.AlwaysRequireApproval?) || (risk.WriteLocal? && policy.RequireApproval?)
    ensures !RequiresApproval(risk, policy) ==> risk.IsAutoRunnableClass()
  {
  }
}
