# Delivery handle and remoting admission check

A Dafny model of two small parts of the messaging core.

**`SimpleDelivery`** (module `Delivery`, file `delivery.dfy`) is the handle
that links one routable, one delivery observer and a `done` flag. It is a
class with those three fields. There are four constructors: the Java
overloads, which all end in the three-argument one. There are accessors and
`SetObserver`, which rebinds the observer in place. There are the three
outcome operations `Acknowledge`, `Cancel` and `Redeliver`, which forward
one call to the observer bound at the time of the call, passing the
delivery itself. Last is `ToString`, the diagnostic rendering
`delivery[<routable>](done|active)`.

The observer and its implementations are foreign code. `DeliveryObserver`
stands in for all of them. It records every call it receives in its
`notifications` log. Its frame lets it change the delivery's `done` flag, and
each record holds the flag both as the observer found it and as it left it.
On cancel it returns an answer of its own choosing, which it also records. So
every contract about an outcome operation follows from a few facts: the call
was forwarded, and it reached that observer. The observer found `done` as it
was before the call, and `done` afterwards is what the observer left. Any
change to `done` during an outcome operation is therefore the observer's.
Nothing depends on what one particular observer would do. `Routable` carries only its own rendering.
`Receiver` is an opaque reference.

**`RemotingConfigurationValidator.validate`** (module `RemotingValidation`,
file `remoting_validation.dfy`) is a total function `Validate` from a
configuration record to `Accepted` or `Rejected(rule)`. The record holds the
transport kind, the invm-disabled flag, the SSL flag and the port. The three
rules are checked in the source's order. `Message(rule)` is the text of the
`IllegalStateException` the source throws for that rule. The if-chain is
proved equal to an ordered-rule reference check, `FirstFired` over
`RuleOrder`. Lemmas about that reference check say exactly which
configurations are accepted and which rule is reported.

Behaviour of the code that a reader might expect otherwise:
- A delivery is meant to reach one terminal outcome, with `done` going from false to true once. `SimpleDelivery` enforces no such thing: it never writes `done` after construction and forwards every outcome call, including a second one. Whether `done` changes is left to the observer.
- Redeliver is meant to name a real receiver, but the code passes `r` through unchecked, so `Redeliver` accepts `null`.
- The outcome operations require a bound observer (`observer != null`), because the code dereferences it unconditionally.

## Model

| member | source | states |
|---|---|---|
| `Delivery.SimpleDelivery.constructor` | src/main/org/jboss/messaging/core/SimpleDelivery.java:32-35 | the no-argument delivery is not done and has no observer and no routable |
| `Delivery.SimpleDelivery.WithDone` | src/main/org/jboss/messaging/core/SimpleDelivery.java:37-40 | `done` is the given flag; observer and routable are null |
| `Delivery.SimpleDelivery.WithBinding` | src/main/org/jboss/messaging/core/SimpleDelivery.java:42-45 | stores the given observer and routable and is not done |
| `Delivery.SimpleDelivery.WithAll` | src/main/org/jboss/messaging/core/SimpleDelivery.java:47-52 | stores exactly the given observer, routable and done flag |
| `Delivery.SimpleDelivery.GetRoutable` | src/main/org/jboss/messaging/core/SimpleDelivery.java:56-59 | returns the stored routable and modifies nothing |
| `Delivery.SimpleDelivery.IsDone` | src/main/org/jboss/messaging/core/SimpleDelivery.java:61-64 | returns the stored done flag and modifies nothing |
| `Delivery.SimpleDelivery.SetObserver` | src/main/org/jboss/messaging/core/SimpleDelivery.java:66-69 | afterwards the observer is the given one; done and routable are unchanged; only the observer field is written |
| `Delivery.SimpleDelivery.GetObserver` | src/main/org/jboss/messaging/core/SimpleDelivery.java:71-74 | returns the stored observer and modifies nothing |
| `Delivery.SimpleDelivery.Acknowledge` | src/main/org/jboss/messaging/core/SimpleDelivery.java:76-79 | needs a bound observer; exactly one acknowledge notification naming this delivery is added to the currently bound observer's log; observer and routable unchanged; the observer recorded `done` as it was before the call (as it found it) and as it left it, and `done` afterwards is the latter; nothing else but that observer is touched |
| `Delivery.SimpleDelivery.Cancel` | src/main/org/jboss/messaging/core/SimpleDelivery.java:81-84 | needs a bound observer; exactly one cancel notification naming this delivery reaches the bound observer; the returned boolean is the answer that observer gave for that call; the observer recorded `done` as it was before the call and as it left it, and `done` afterwards is the latter; observer and routable unchanged |
| `Delivery.SimpleDelivery.Redeliver` | src/main/org/jboss/messaging/core/SimpleDelivery.java:86-89 | needs a bound observer; exactly one redeliver notification naming this delivery and the given receiver reaches the bound observer; the observer recorded `done` as it was before the call and as it left it, and `done` afterwards is the latter; observer and routable unchanged |
| `Delivery.RoutableText` | src/main/org/jboss/messaging/core/SimpleDelivery.java:95 | how the routable appears in the concatenation: its own rendering, or `null` when there is no routable |
| `Delivery.SimpleDelivery.ToString` | src/main/org/jboss/messaging/core/SimpleDelivery.java:93-96 | the rendering reads back into the routable's text (`null` when there is none) and the done flag |
| `Delivery.DescriptionRoundTrip` | src/main/org/jboss/messaging/core/SimpleDelivery.java:93-96 | `delivery[` + text + `](done)` / `](active)` parses back to that text and state, whatever characters the text contains |
| `Delivery.ParseDescriptionExact` | src/main/org/jboss/messaging/core/SimpleDelivery.java:93-96 | a string that parses as a rendering is exactly that rendering, so a rendering fixes its string |
| `Delivery.RebindThenAcknowledge` | src/main/org/jboss/messaging/core/SimpleDelivery.java:66-79 | after rebinding from o1 to o2, acknowledge reaches o2 exactly once (recording `done` as false on entry and as the observer left it) and leaves o1's log unchanged; the routable is the one given at construction |
| `RemotingValidation.Fires` | src/main/org/jboss/messaging/core/remoting/impl/RemotingConfigurationValidator.java:36-48 | the three guards: INVM transport with invm disabled, INVM transport with SSL enabled, a negative port |
| `RemotingValidation.Message` | src/main/org/jboss/messaging/core/remoting/impl/RemotingConfigurationValidator.java:39-50 | the exception text each rule reports, exactly as the source throws it |
| `RemotingValidation.Validate` | src/main/org/jboss/messaging/core/remoting/impl/RemotingConfigurationValidator.java:29-55 | accepted exactly when no rule fires; a rejection names a rule that fires, and no rule earlier in the order fires |
| `RemotingValidation.FirstFiredNone` | src/main/org/jboss/messaging/core/remoting/impl/RemotingConfigurationValidator.java:36-54 | an ordered rule check finds nothing exactly when no rule of the list fires |
| `RemotingValidation.FirstFiredIsFirst` | src/main/org/jboss/messaging/core/remoting/impl/RemotingConfigurationValidator.java:36-51 | the rule an ordered check reports fires, and no rule before it in the list fires |
| `RemotingValidation.ValidateIsOrderedCheck` | src/main/org/jboss/messaging/core/remoting/impl/RemotingConfigurationValidator.java:36-54 | validate is the ordered check over invm-disabled, then SSL, then port: it fixes which error is reported when several rules fail |
| `RemotingValidation.InvmDisabledRejected` | src/main/org/jboss/messaging/core/remoting/impl/RemotingConfigurationValidator.java:36-41 | INVM transport with invm disabled is rejected with the "disable invm" message, whatever the SSL flag and port are |
| `RemotingValidation.SslOverInvmRejected` | src/main/org/jboss/messaging/core/remoting/impl/RemotingConfigurationValidator.java:42-47 | INVM transport with SSL enabled (and invm not disabled) is rejected with the "enable SSL" message |
| `RemotingValidation.NegativePortRejected` | src/main/org/jboss/messaging/core/remoting/impl/RemotingConfigurationValidator.java:48-51 | a negative port is rejected for every transport kind, with the port message when neither invm rule fires |
| `RemotingValidation.NetworkTransportAdmission` | src/main/org/jboss/messaging/core/remoting/impl/RemotingConfigurationValidator.java:36-54 | a non-INVM transport is accepted exactly when its port is at least 0, whatever its flags are; port 0 is accepted |
| `RemotingValidation.MessagesIdentifyRules` | src/main/org/jboss/messaging/core/remoting/impl/RemotingConfigurationValidator.java:36-51 | the three rejection messages are pairwise different, so the message identifies the rule |

## Left out

- Concrete `DeliveryObserver` and `Receiver` implementations and their persistence and routing effects: these are foreign code. The recording stand-in may change `done`, but no contract says whether it does.
- Exceptions thrown by the observer's calls: the model covers only the forwarding; failure propagation from foreign code is not characterised.
- Reentrant calls from an observer back into the delivery during an outcome call: the stand-in's frame permits only its own log and the delivery's `done`.
- `Routable.toString()`: modelled as a fixed string per routable (`Routable.rendering`); a null routable renders as `null`, as Java string concatenation does.
- The validator's debug logging: a side channel that has no effect on the result.
- The `assert configuration != null` of `validate`: a configuration here is a datatype value and can never be null, so the type carries this precondition.
- `TransportType` is not part of this model beyond `INVM` and one network kind (`TCP`); every network-transport lemma is stated for any kind other than `INVM`.
- The port is an unbounded integer rather than a 32-bit Java `int`; only its sign is examined, so nothing depends on the width.
- Transport construction, the opaque provider parameters (key and trust store paths, passwords, store types), TLS handshakes and the two-way SSL integration test: network I/O and a foreign TLS stack, none of which the validator reads.
- Concurrency: the model assumes that outcome calls on one delivery are serialised by its owner; the class itself takes no lock.
