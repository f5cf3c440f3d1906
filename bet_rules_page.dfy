/**
 * The bet-rules page: a list of rules and the form that adds one. Each handler
 * is a function from the page's state to its next state. The rule id is built
 * from the current time, which is a parameter here.
 */
module BetRulesPage {
  import opened Wrappers
  import opened Text
  import opened Lists
  import Automator

  datatype Rule = Rule(id: string, name: string, active: bool, trigger: string, betType: string, betAmount: int)

  /** The form's fields; the amount is the number the text input parses to. */
  datatype Form = Form(name: string, trigger: string, betType: string, betAmount: int)

  datatype Page = Page(rules: seq<Rule>, form: Form)

  /** The options of the bet-type select. */
  const BetTypeOptions := ["Casa", "Fora", "Empate"]

  const EmptyForm := Form("", "", "Casa", 25)

  /** The rule a valid form becomes, with the id `rule-<now>`. */
  function NewRule(f: Form, now: int): (r: Rule)
    ensures r.active && r.id == "rule-" + Decimal(now)
    ensures r.name == f.name && r.trigger == f.trigger && r.betType == f.betType && r.betAmount == f.betAmount
  {
    Rule("rule-" + Decimal(now), f.name, true, f.trigger, f.betType, f.betAmount)
  }

  /** `handleSubmit`: a form without a name or a trigger is refused and nothing changes. */
  function Submit(p: Page, now: int): (r: Page)
    ensures p.form.name == "" || p.form.trigger == "" ==> r == p
    ensures p.form.name != "" && p.form.trigger != "" ==>
      r.rules == p.rules + [NewRule(p.form, now)] && r.form == EmptyForm
  {
    if p.form.name == "" || p.form.trigger == "" then p
    else Page(p.rules + [NewRule(p.form, now)], EmptyForm)
  }

  /** `handleToggleRule`: flips the flag of the rules with the id. */
  function ToggleRule(rules: seq<Rule>, id: string): (r: seq<Rule>)
    ensures |r| == |rules|
    ensures forall i :: 0 <= i < |rules| ==>
      r[i] == if rules[i].id == id then rules[i].(active := !rules[i].active) else rules[i]
  {
    seq(|rules|, i requires 0 <= i < |rules| =>
      if rules[i].id == id then rules[i].(active := !rules[i].active) else rules[i])
  }

  /** `handleRemoveRule`: the `filter` that keeps the rules with another id, in their order. */
  function RemoveRule(rules: seq<Rule>, id: string): (r: seq<Rule>)
    ensures |r| <= |rules|
    ensures forall x :: x in r <==> x in rules && x.id != id
  {
    var keep := (x: Rule) => x.id != id;
    FilterMembers(rules, keep);
    Filter(rules, keep)
  }

  /** A valid submit adds exactly one rule, at the end, and leaves the existing rules alone. */
  lemma SubmitAppendsOne(p: Page, now: int)
    requires p.form.name != "" && p.form.trigger != ""
    ensures var r := Submit(p, now);
      |r.rules| == |p.rules| + 1 && r.rules[..|p.rules|] == p.rules
      && r.rules[|p.rules|].active && r.rules[|p.rules|].betType == p.form.betType
  {
    assert Submit(p, now).rules[..|p.rules|] == p.rules;
  }

  /** Toggling twice is the identity. */
  lemma ToggleRuleTwice(rules: seq<Rule>, id: string)
    ensures ToggleRule(ToggleRule(rules, id), id) == rules
  {
  }

  /** `Casa`, the first option and the form's default, bets on the home side. */
  lemma HomeOptionIsPlaceable()
    ensures EmptyForm.betType == BetTypeOptions[0]
    ensures Automator.BetSelector(BetTypeOptions[0]) == Some(Automator.HomeBetButton)
  {
    assert ToLower("Casa") == "casa" by {
      assert LowerChar('C') == 'c';
    }
  }

  /** `Fora`, the second option, bets on the away side. */
  lemma AwayOptionIsPlaceable()
    ensures Automator.BetSelector(BetTypeOptions[1]) == Some(Automator.AwayBetButton)
  {
    assert ToLower("Fora") == "fora" by {
      assert LowerChar('F') == 'f';
    }
  }

  /** `Empate`, the third option, bets on the draw. */
  lemma DrawOptionIsPlaceable()
    ensures Automator.BetSelector(BetTypeOptions[2]) == Some(Automator.DrawBetButton)
  {
    assert ToLower("Empate") == "empate" by {
      assert LowerChar('E') == 'e';
    }
  }
}
