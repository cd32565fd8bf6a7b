/**
 * Admission check for a remoting (transport) configuration: three rules,
 * checked in a fixed order; the first one that fires rejects the
 * configuration with its own message, and a configuration none of them
 * fires on is accepted.
 */
module RemotingValidation {
  import opened Wrappers

  /** The transport kinds: the in-process one and a network one. */
  datatype TransportType = INVM | TCP

  /** The part of a remoting configuration that validation reads. Being a
      value, a configuration is never null. */
  datatype RemotingConfiguration = RemotingConfiguration(
    transport: TransportType,
    invmDisabled: bool,
    sslEnabled: bool,
    port: int)

  /** The three admission rules. */
  datatype Rule = InvmDisabledRule | SslRule | PortRule

  /** Outcome of validation: accepted, or rejected by exactly one rule
      (the source throws an IllegalStateException with that rule's message). */
  datatype Verdict = Accepted | Rejected(rule: Rule)

  /** Does `rule` object to configuration `c`? */
  predicate Fires(rule: Rule, c: RemotingConfiguration)
  {
    match rule
    case InvmDisabledRule => c.transport == INVM && c.invmDisabled
    case SslRule => c.transport == INVM && c.sslEnabled
    case PortRule => c.port < 0
  }

  /** The message each rule reports. */
  function Message(rule: Rule): string
  {
    match rule
    case InvmDisabledRule => "It is not allowed to disable invm communication when the transport is set to invm."
    case SslRule => "It is not allowed to enable SSL when the transport is set to invm."
    case PortRule => "Remoting port can not be negative"
  }

  /** The order in which the rules are checked. */
  const RuleOrder: seq<Rule> := [InvmDisabledRule, SslRule, PortRule]

  /** Position of a rule in RuleOrder. */
  function Rank(rule: Rule): (k: nat)
    ensures k < |RuleOrder| && RuleOrder[k] == rule
  {
    match rule
    case InvmDisabledRule => 0
    case SslRule => 1
    case PortRule => 2
  }

  /** validate: the guarded checks, in the order the source makes them. */
  function Validate(c: RemotingConfiguration): (v: Verdict)
    ensures v == Accepted <==> forall rule :: !Fires(rule, c)
    ensures v.Rejected? ==> Fires(v.rule, c)
    ensures v.Rejected? ==> forall rule :: Rank(rule) < Rank(v.rule) ==> !Fires(rule, c)
  {
    if c.transport == INVM && c.invmDisabled then
      assert Fires(InvmDisabledRule, c);
      Rejected(InvmDisabledRule)
    else if c.transport == INVM && c.sslEnabled then
      assert Fires(SslRule, c);
      Rejected(SslRule)
    else if c.port < 0 then
      assert Fires(PortRule, c);
      Rejected(PortRule)
    else
      Accepted
  }

  /** Reference definition of an ordered check: the first rule of `rules`
      that fires on `c`, if any. */
  function FirstFired(rules: seq<Rule>, c: RemotingConfiguration): Option<Rule>
  {
    if rules == [] then None
    else if Fires(rules[0], c) then Some(rules[0])
    else FirstFired(rules[1..], c)
  }

  /** An ordered check finds nothing exactly when no rule of the list fires. */
  lemma {:induction false} FirstFiredNone(rules: seq<Rule>, c: RemotingConfiguration)
    ensures FirstFired(rules, c) == None <==> forall i :: 0 <= i < |rules| ==> !Fires(rules[i], c)
  {
    if rules != [] {
      FirstFiredNone(rules[1..], c);
      assert forall i :: 1 <= i < |rules| ==> rules[i] == rules[1..][i - 1];
    }
  }

  /** What an ordered check reports is a rule of the list that fires and
      before which no rule of the list fires. */
  lemma {:induction false} FirstFiredIsFirst(rules: seq<Rule>, c: RemotingConfiguration)
    requires FirstFired(rules, c).Some?
    ensures exists k :: (0 <= k < |rules| && rules[k] == FirstFired(rules, c).value &&
                         Fires(rules[k], c) && forall j :: 0 <= j < k ==> !Fires(rules[j], c))
  {
    if !Fires(rules[0], c) {
      FirstFiredIsFirst(rules[1..], c);
      var k :| 0 <= k < |rules[1..]| && rules[1..][k] == FirstFired(rules[1..], c).value &&
        Fires(rules[1..][k], c) && forall j :: 0 <= j < k ==> !Fires(rules[1..][j], c);
      assert rules[k + 1] == rules[1..][k];
      forall j | 0 <= j < k + 1
        ensures !Fires(rules[j], c)
      {
        if j > 0 {
          assert rules[j] == rules[1..][j - 1];
        }
      }
    } else {
      assert rules[0] == FirstFired(rules, c).value;
    }
  }

  /** Validate is the ordered check over RuleOrder: it accepts exactly when
      no rule fires and otherwise reports the first rule in RuleOrder that
      fires. */
  lemma ValidateIsOrderedCheck(c: RemotingConfiguration)
    ensures Validate(c) == match FirstFired(RuleOrder, c)
                           case None => Accepted
                           case Some(rule) => Rejected(rule)
  {
    var v := Validate(c);
    match FirstFired(RuleOrder, c)
    case None =>
      FirstFiredNone(RuleOrder, c);
      forall rule
        ensures !Fires(rule, c)
      {
        assert RuleOrder[Rank(rule)] == rule;
      }
    case Some(r) =>
      FirstFiredIsFirst(RuleOrder, c);
      var k :| 0 <= k < |RuleOrder| && RuleOrder[k] == r &&
        Fires(r, c) && forall j :: 0 <= j < k ==> !Fires(RuleOrder[j], c);
      assert Rank(r) == k;
      assert v.Rejected? && Rank(v.rule) == k;
  }

  /** In-process transport with in-process communication disabled is
      rejected by the invm rule, whatever else the configuration says. */
  lemma InvmDisabledRejected(c: RemotingConfiguration)
    requires c.transport == INVM && c.invmDisabled
    ensures Validate(c) == Rejected(InvmDisabledRule)
    ensures Message(Validate(c).rule) == "It is not allowed to disable invm communication when the transport is set to invm."
  {
  }

  /** In-process transport with SSL enabled is rejected by the SSL rule
      unless the invm rule fires first. */
  lemma SslOverInvmRejected(c: RemotingConfiguration)
    requires c.transport == INVM && c.sslEnabled && !c.invmDisabled
    ensures Validate(c) == Rejected(SslRule)
    ensures Message(Validate(c).rule) == "It is not allowed to enable SSL when the transport is set to invm."
  {
  }

  /** A negative port is rejected for every transport kind; when the two
      invm rules do not fire, it is the reported reason. */
  lemma NegativePortRejected(c: RemotingConfiguration)
    requires c.port < 0
    ensures Validate(c).Rejected?
    ensures !Fires(InvmDisabledRule, c) && !Fires(SslRule, c) ==> Validate(c) == Rejected(PortRule)
  {
  }

  /** A network transport is accepted exactly when its port is not
      negative, whatever its SSL and invm-disabled flags are; port 0 is
      accepted. */
  lemma NetworkTransportAdmission(c: RemotingConfiguration)
    requires c.transport != INVM
    ensures Validate(c) == Accepted <==> c.port >= 0
    ensures c.port == 0 ==> Validate(c) == Accepted
  {
  }

  /** The three rules report three different messages, so the message
      identifies the rule that rejected the configuration. */
  lemma MessagesIdentifyRules(r1: Rule, r2: Rule)
    ensures Message(r1) == Message(r2) <==> r1 == r2
  {
  }
}
