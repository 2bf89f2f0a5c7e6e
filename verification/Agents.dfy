/** Department agents: their capability record and the keyword escalation check
    (app/departments/base/agent.py). The text model is ASCII: `Lower` changes A-Z only. */
module Agents {
  import opened Common

  datatype Rule = Rule(condition: string, escalateTo: string, keywords: seq<string>)

  datatype Capability = Capability(department: string, permission: Option<string>, rules: seq<Rule>)

  /** What the caller hands to should_escalate. */
  datatype Context = Context(text: string, securityIncident: bool, financialCommitment: bool)

  /** The data-driven agent, and the one subclass that overrides should_escalate. */
  datatype Agent =
    | DataDriven(capability: Capability)
    | ExecutiveOffice(capability: Capability, incidentRule: Rule, commitmentRule: Rule)

  const ALWAYS_ESCALATE := "*"

  function LowerChar(c: char): char {
    if 'A' <= c <= 'Z' then (c as int + 32) as char else c
  }

  function Lower(s: string): (t: string)
    ensures |t| == |s|
    ensures forall i :: 0 <= i < |s| ==> t[i] == LowerChar(s[i])
  {
    seq(|s|, i requires 0 <= i < |s| => LowerChar(s[i]))
  }

  predicate OccursAt(text: string, word: string, at: int) {
    0 <= at && at + |word| <= |text| && text[at..at + |word|] == word
  }

  predicate Contains(text: string, word: string) {
    exists at :: 0 <= at <= |text| && OccursAt(text, word, at)
  }

  predicate KeywordHit(rule: Rule, lowered: string) {
    exists k :: 0 <= k < |rule.keywords| && Contains(lowered, Lower(rule.keywords[k]))
  }

  predicate Fires(rule: Rule, text: string) {
    ALWAYS_ESCALATE in rule.keywords || KeywordHit(rule, Lower(text))
  }

  /** The position of the first rule that fires, if any does. */
  function FirstMatch(rules: seq<Rule>, text: string): (found: Option<nat>)
    ensures found.Some? ==> found.value < |rules| && Fires(rules[found.value], text)
    ensures found.Some? ==> forall i :: 0 <= i < found.value ==> !Fires(rules[i], text)
    ensures found.None? ==> forall i :: 0 <= i < |rules| ==> !Fires(rules[i], text)
  {
    if rules == [] then None
    else if Fires(rules[0], text) then Some(0)
    else
      match FirstMatch(rules[1..], text)
      case Some(i) =>
        assert forall j :: 1 <= j < |rules| ==> rules[j] == rules[1..][j - 1];
        Some(i + 1)
      case None =>
        assert forall j :: 1 <= j < |rules| ==> rules[j] == rules[1..][j - 1];
        None
  }

  function ShouldEscalate(agent: Agent, context: Context): Option<Rule> {
    match agent
    case DataDriven(cap) =>
      (match FirstMatch(cap.rules, context.text)
       case Some(i) => Some(cap.rules[i])
       case None => None)
    case ExecutiveOffice(_, incident, commitment) =>
      if context.securityIncident then Some(incident)
      else if context.financialCommitment then Some(commitment)
      else None
  }

  /** The text a single department-invoke checks: prompt, newline, response. */
  function InvokeText(prompt: string, response: string): string {
    prompt + "\n" + response
  }

  lemma LowerOfInvokeText(prompt: string, response: string)
    ensures Lower(InvokeText(prompt, response)) == Lower(prompt) + "\n" + Lower(response)
  {
  }

  lemma ContainsInSuffix(head: string, tail: string, word: string)
    requires Contains(tail, word)
    ensures Contains(head + tail, word)
  {
    var at :| 0 <= at <= |tail| && OccursAt(tail, word, at);
    assert (head + tail)[|head| + at..|head| + at + |word|] == tail[at..at + |word|];
    assert OccursAt(head + tail, word, |head| + at);
  }

  lemma ContainsInPrefix(head: string, tail: string, word: string)
    requires Contains(head, word)
    ensures Contains(head + tail, word)
  {
    var at :| 0 <= at <= |head| && OccursAt(head, word, at);
    assert (head + tail)[at..at + |word|] == head[at..at + |word|];
    assert OccursAt(head + tail, word, at);
  }

  predicate NoNewline(word: string) {
    forall i :: 0 <= i < |word| ==> word[i] != '\n'
  }

  /** A newline-free word cannot straddle the separator. */
  lemma ContainsSplits(head: string, tail: string, word: string)
    requires NoNewline(word)
    ensures Contains(head + "\n" + tail, word) <==> Contains(head, word) || Contains(tail, word)
  {
    var all := head + "\n" + tail;
    if Contains(head, word) {
      ContainsInPrefix(head, "\n" + tail, word);
      assert all == head + ("\n" + tail);
    }
    if Contains(tail, word) {
      ContainsInSuffix(head + "\n", tail, word);
    }
    if Contains(all, word) {
      var at :| 0 <= at <= |all| && OccursAt(all, word, at);
      OnOneSide(head, tail, word, at);
    }
  }

  lemma OnOneSide(head: string, tail: string, word: string, at: int)
    requires NoNewline(word) && OccursAt(head + "\n" + tail, word, at)
    ensures Contains(head, word) || Contains(tail, word)
  {
    var all := head + "\n" + tail;
    var piece := all[at..at + |word|];
    forall j | at <= j < at + |word| ensures all[j] != '\n' {
      assert piece[j - at] == all[j];
    }
    assert all[|head|] == '\n';
    if at + |word| <= |head| {
      assert head[at..at + |word|] == all[at..at + |word|];
      assert OccursAt(head, word, at);
    } else if at > |head| {
      var from := at - |head| - 1;
      assert tail[from..from + |word|] == all[at..at + |word|];
      assert OccursAt(tail, word, from);
    } else {
      assert false;
    }
  }

  lemma FiresInSuffix(rule: Rule, prompt: string, response: string)
    requires Fires(rule, response)
    ensures Fires(rule, InvokeText(prompt, response))
  {
    if ALWAYS_ESCALATE !in rule.keywords {
      LowerOfInvokeText(prompt, response);
      var k :| 0 <= k < |rule.keywords| && Contains(Lower(response), Lower(rule.keywords[k]));
      ContainsInSuffix(Lower(prompt) + "\n", Lower(response), Lower(rule.keywords[k]));
    }
  }

  /** Whatever escalates as a workflow step (response only) also escalates as a single invoke
      (prompt, newline, response), by a rule at the same or an earlier position. */
  lemma InvokeEscalatesAtLeastAsMuch(rules: seq<Rule>, prompt: string, response: string)
    requires FirstMatch(rules, response).Some?
    ensures FirstMatch(rules, InvokeText(prompt, response)).Some?
    ensures FirstMatch(rules, InvokeText(prompt, response)).value <= FirstMatch(rules, response).value
  {
    FiresInSuffix(rules[FirstMatch(rules, response).value], prompt, response);
  }

  /** The exact relation for one rule: with newline-free keywords the invoke check fires precisely
      when the prompt alone or the response alone would make it fire. */
  lemma InvokeFiresExactly(rule: Rule, prompt: string, response: string)
    requires forall k :: 0 <= k < |rule.keywords| ==> NoNewline(rule.keywords[k])
    ensures Fires(rule, InvokeText(prompt, response)) <==> Fires(rule, prompt) || Fires(rule, response)
  {
    LowerOfInvokeText(prompt, response);
    forall k | 0 <= k < |rule.keywords|
      ensures Contains(Lower(InvokeText(prompt, response)), Lower(rule.keywords[k]))
          <==> Contains(Lower(prompt), Lower(rule.keywords[k])) || Contains(Lower(response), Lower(rule.keywords[k]))
    {
      ContainsSplits(Lower(prompt), Lower(response), Lower(rule.keywords[k]));
    }
  }

  // ---------------------------------------------------------------- what firing means, letter by letter

  /** Equal but for case. */
  predicate SameLetter(c: char, d: char) {
    c == d || ('A' <= c <= 'Z' && d as int == c as int + 32) || ('A' <= d <= 'Z' && c as int == d as int + 32)
  }

  predicate ReadsAt(text: string, word: string, at: int) {
    0 <= at && at + |word| <= |text| && forall i :: 0 <= i < |word| ==> SameLetter(text[at + i], word[i])
  }

  lemma LowerOfSlice(text: string, word: string, at: int)
    ensures OccursAt(Lower(text), Lower(word), at) <==> ReadsAt(text, word, at)
  {
    if 0 <= at && at + |word| <= |text| {
      var piece := Lower(text)[at..at + |word|];
      assert forall i :: 0 <= i < |word| ==> piece[i] == LowerChar(text[at + i]);
      if piece == Lower(word) {
        forall i | 0 <= i < |word| ensures SameLetter(text[at + i], word[i]) {
          assert piece[i] == LowerChar(word[i]);
        }
      }
    }
  }

  /** A rule fires on a text exactly if "*" is among its keywords or some keyword stands somewhere in the text,
      letter by letter, upper or lower case. */
  lemma FiresReads(rule: Rule, text: string)
    ensures Fires(rule, text) <==>
      "*" in rule.keywords || exists k, at :: 0 <= k < |rule.keywords| && ReadsAt(text, rule.keywords[k], at)
  {
    forall k | 0 <= k < |rule.keywords|
      ensures Contains(Lower(text), Lower(rule.keywords[k])) <==> exists at :: ReadsAt(text, rule.keywords[k], at)
    {
      ContainsReads(text, rule.keywords[k]);
    }
  }

  lemma ContainsReads(text: string, word: string)
    ensures Contains(Lower(text), Lower(word)) <==> exists at :: ReadsAt(text, word, at)
  {
    if Contains(Lower(text), Lower(word)) {
      var at :| 0 <= at <= |text| && OccursAt(Lower(text), Lower(word), at);
      LowerOfSlice(text, word, at);
    }
    if at :| ReadsAt(text, word, at) {
      LowerOfSlice(text, word, at);
    }
  }

  predicate FiresFirst(rules: seq<Rule>, text: string, i: int, rule: Rule) {
    && 0 <= i < |rules| && rules[i] == rule && Fires(rule, text)
    && forall j :: 0 <= j < i ==> !Fires(rules[j], text)
  }

  /** The first rule that fires decides a data-driven agent; the executive office goes by its two flags, a security
      incident first. */
  lemma EscalationReads(agent: Agent, context: Context)
    ensures agent.DataDriven? ==>
      match ShouldEscalate(agent, context)
      case None => forall i :: 0 <= i < |agent.capability.rules| ==> !Fires(agent.capability.rules[i], context.text)
      case Some(rule) => exists i :: FiresFirst(agent.capability.rules, context.text, i, rule)
    ensures agent.ExecutiveOffice? && context.securityIncident ==>
      ShouldEscalate(agent, context) == Some(agent.incidentRule)
    ensures agent.ExecutiveOffice? && !context.securityIncident && context.financialCommitment ==>
      ShouldEscalate(agent, context) == Some(agent.commitmentRule)
    ensures agent.ExecutiveOffice? && !context.securityIncident && !context.financialCommitment ==>
      ShouldEscalate(agent, context) == None
  {
    if agent.DataDriven? {
      var found := FirstMatch(agent.capability.rules, context.text);
      if found.Some? {
        var rule := agent.capability.rules[found.value];
        assert ShouldEscalate(agent, context) == Some(rule);
        assert FiresFirst(agent.capability.rules, context.text, found.value, rule);
      }
    }
  }
}
