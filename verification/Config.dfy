/** The persisted configuration: providers, ordered rules, priority policies. */
module Config {
  import opened Entries

  datatype Option<+T> = None | Some(value: T)

  /** Seconds on the router's clock, days of 24 hours starting at 0; 0 itself is the unset time. */
  type Time = nat

  const DAY := 86400
  const MINUTES_PER_DAY := 1440

  datatype ProviderKind = OpenVPN | Subscription

  datatype Provider = Provider(id: string, name: string, kind: ProviderKind, location: string, enabled: bool)

  datatype Rule = Rule(
    id: string, name: string, providerId: string, location: string, domains: seq<Entry>, enabled: bool)

  type Minute = m: nat | m < 1440
  datatype Clock = Unreadable | At(minute: Minute)
  datatype Window = Window(start: Clock, end: Clock, location: string)

  datatype Policy = Policy(
    id: string, providerId: string, name: string, enabled: bool, targets: seq<string>, schedule: seq<Window>)

  datatype Automation = Automation(
    autoRecover: bool, providerFailover: bool, failureSeconds: int, restoreSeconds: int)

  datatype State = State(
    providers: seq<Provider>, rules: seq<Rule>, policies: seq<Policy>, automation: Automation, vpnIface: string)

  /** How long a provider or target must fail before it is left: two minutes unless set. */
  function FailureSeconds(state: State): nat {
    if state.automation.failureSeconds <= 0 then 120 else state.automation.failureSeconds
  }

  /** How long it must answer before it is taken back: one minute unless set. */
  function RestoreSeconds(state: State): nat {
    if state.automation.restoreSeconds <= 0 then 60 else state.automation.restoreSeconds
  }

  function FindProvider(providers: seq<Provider>, id: string): (r: Option<Provider>)
    ensures r.Some? ==> r.value in providers && r.value.id == id
    ensures r.None? ==> forall p :: p in providers ==> p.id != id
  {
    if providers == [] then None
    else if providers[0].id == id then Some(providers[0])
    else FindProvider(providers[1..], id)
  }

  predicate ProviderEnabled(providers: seq<Provider>, id: string) {
    var p := FindProvider(providers, id);
    p.Some? && p.value.enabled
  }

  predicate UsesOpenVPN(providers: seq<Provider>, id: string) {
    var p := FindProvider(providers, id);
    p.Some? && p.value.enabled && p.value.kind == OpenVPN
  }

  /** A rule that is applied: switched on, and so is its provider. */
  predicate Active(providers: seq<Provider>, rule: Rule) {
    rule.enabled && ProviderEnabled(providers, rule.providerId)
  }

  ghost predicate UniqueRuleIds(rules: seq<Rule>) {
    forall i, j :: 0 <= i < j < |rules| ==> rules[i].id != rules[j].id
  }

  ghost predicate UniqueProviderIds(providers: seq<Provider>) {
    forall i, j :: 0 <= i < j < |providers| ==> providers[i].id != providers[j].id
  }

  /** With unique ids a provider of the list is the one its id finds. */
  lemma {:induction false} FindProviderFinds(providers: seq<Provider>, p: Provider)
    requires UniqueProviderIds(providers) && p in providers
    ensures FindProvider(providers, p.id) == Some(p)
  {
    if providers[0] != p {
      FindProviderFinds(providers[1..], p);
    }
  }
}
