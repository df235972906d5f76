/** Decisions, reasons and resolved rules (models.py and the rule lookups of policy.py). */
module Models {
  datatype Decision = Allow | Warn | Deny

  datatype Effect = WarnEffect | DenyEffect

  datatype Reason = Reason(rule: string, effect: Effect, matched: string)

  /** A named rule list, written `<section>.<name>` in policies and provenance. */
  datatype RuleName = RuleName(section: string, name: string)

  /** The nested mapping section -> name -> patterns, flattened to its pattern lists. */
  type Rules = map<RuleName, seq<string>>

  datatype Policy = Policy(default: Decision, rules: Rules)

  function Rank(d: Decision): nat {
    match d
    case Allow => 0
    case Warn => 1
    case Deny => 2
  }

  function Worse(a: Decision, b: Decision): Decision {
    if Rank(a) < Rank(b) then b else a
  }

  predicate Blocks(reasons: seq<Reason>) {
    exists r :: r in reasons && r.effect == DenyEffect
  }

  function DecisionFor(reasons: seq<Reason>, default: Decision): Decision {
    if Blocks(reasons) then Deny
    else if reasons != [] then Warn
    else default
  }

  /** rules.get(section, {}).get(name, []) */
  function PatternsOf(rules: Rules, section: string, name: string): seq<string> {
    if RuleName(section, name) in rules then rules[RuleName(section, name)] else []
  }
}
