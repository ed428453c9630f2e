/**
 Control and selection scopes (harness/runtime.go, controls.go).
 */
module Scopes {

  datatype Kind = RunScope | AgentScope | TargetScope | CheckScope | OtherScope

  datatype Scope = Scope(kind: Kind, agent: string, target: string, check: string)

  /** A scope contains another when it fixes the same agent, target and check as far as it goes. */
  predicate Contains(s: Scope, other: Scope) {
    match s.kind
    case RunScope => true
    case AgentScope => s.agent == other.agent
    case TargetScope => s.agent == other.agent && s.target == other.target
    case CheckScope => s.agent == other.agent && s.target == other.target && s.check == other.check
    case OtherScope => false
  }
}
