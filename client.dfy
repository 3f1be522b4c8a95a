/**
 * The API client's listener and connection registry: the list of event listeners, the map
 * from appliance id (haId) to its one streaming connection, the cached token, and what the
 * connection callbacks (onMessage, onPreRetry, onRetryError) do with them.
 */
module Client {
  import opened Wrappers
  import opened Text
  import opened Model
  import opened Credentials

  /** A ServerSentEventListener: the appliance it listens to. Listeners are compared by identity. */
  class Listener {
    const haId: string

    constructor (haId: string)
      ensures this.haId == haId
    {
      this.haId := haId;
    }
  }

  /**
   * A streaming connection: a serial number telling connections apart, and the listener
   * whose registration opened it (its callbacks capture that listener and its haId).
   */
  datatype Sse = Sse(serial: nat, owner: Listener) {
    function HaId(): string {
      owner.haId
    }
  }

  /** One onEvent call made while dispatching a frame. */
  datatype Delivery = Delivery(listener: Listener, event: Event)

  /** The opaque request object onPreRetry hands back to the transport. */
  datatype Request = Request(url: string, authorization: string)

  /**
   * The client's state: its credentials, its listener list (in registration order, repeats
   * allowed), its connection map, the connections it has closed, and the number of
   * connections it has opened so far.
   */
  datatype Registry = Registry(
    simulated: bool,
    refreshToken: Option<string>,
    token: Option<string>,
    listeners: seq<Listener>,
    connections: map<string, Sse>,
    closed: set<Sse>,
    nextSerial: nat)

  predicate HasListenerFor(ls: seq<Listener>, haId: string) {
    exists l :: l in ls && l.haId == haId
  }

  /** Every connection is filed under its own haId, is still open, and was nextSerial by this client. */
  predicate Valid(r: Registry) {
    && (forall h :: h in r.connections ==>
          r.connections[h].HaId() == h && r.connections[h].serial < r.nextSerial && r.connections[h] !in r.closed)
    && (forall c :: c in r.closed ==> c.serial < r.nextSerial)
  }

  lemma HasListenerForIndex(ls: seq<Listener>, haId: string)
    ensures HasListenerFor(ls, haId) <==> exists k :: 0 <= k < |ls| && ls[k].haId == haId
  {
    if HasListenerFor(ls, haId) {
      var l :| l in ls && l.haId == haId;
      var k :| 0 <= k < |ls| && ls[k] == l;
    }
  }

  lemma ValuesAsImage(m: map<string, Sse>)
    ensures (set h | h in m.Keys :: m[h]) == m.Values
  {
    forall v | v in m.Values
      ensures v in (set h | h in m.Keys :: m[h])
    {
      var h :| h in m.Keys && m[h] == v;
    }
  }

  /** Every registered listener has a connection for its haId. */
  predicate Covered(r: Registry) {
    forall l :: l in r.listeners ==> l.haId in r.connections
  }

  /** Every connection has a registered listener for its haId. */
  predicate NoOrphan(r: Registry) {
    forall h :: h in r.connections ==> HasListenerFor(r.listeners, h)
  }

  function Initial(simulated: bool, refreshToken: Option<string>): (r: Registry)
    ensures Valid(r) && Covered(r) && NoOrphan(r)
    ensures r.token.None? && r.listeners == [] && r.connections == map[]
  {
    Registry(simulated, refreshToken, None, [], map[], {}, 0)
  }

  /** ArrayList.remove(Object): drop the first occurrence, if any. */
  function RemoveFirst(ls: seq<Listener>, l: Listener): (r: seq<Listener>)
    ensures multiset(r) == multiset(ls) - multiset{l}
    ensures l !in ls ==> r == ls
  {
    if |ls| == 0 then []
    else if ls[0] == l then
      assert ls == [ls[0]] + ls[1..];
      ls[1..]
    else
      assert ls == [ls[0]] + ls[1..];
      [ls[0]] + RemoveFirst(ls[1..], l)
  }

  /** What ArrayList.remove(Object) removes is the first occurrence: the list is cut around it. */
  lemma {:induction false} RemoveFirstAtFirstOccurrence(ls: seq<Listener>, l: Listener)
    requires l in ls
    ensures exists i :: 0 <= i < |ls| && ls[i] == l && l !in ls[..i] && RemoveFirst(ls, l) == ls[..i] + ls[i + 1..]
  {
    if ls[0] == l {
      assert ls[..0] + ls[1..] == ls[1..];
    } else {
      assert ls == [ls[0]] + ls[1..];
      RemoveFirstAtFirstOccurrence(ls[1..], l);
      RemoveFirstConsStep(ls, l, RemoveFirst(ls[1..], l));
    }
  }

  /** Dropping the first occurrence from the tail of a list not headed by it drops the list's first occurrence. */
  lemma RemoveFirstConsStep(ls: seq<Listener>, l: Listener, rest: seq<Listener>)
    requires |ls| > 0 && ls[0] != l
    requires l in ls[1..] ==> exists j :: 0 <= j < |ls[1..]| && ls[1..][j] == l && l !in ls[1..][..j] && rest == ls[1..][..j] + ls[1..][j + 1..]
    ensures l in ls ==> exists i :: 0 <= i < |ls| && ls[i] == l && l !in ls[..i] && [ls[0]] + rest == ls[..i] + ls[i + 1..]
  {
    if l in ls {
      assert ls == [ls[0]] + ls[1..];
      var j :| 0 <= j < |ls| - 1 && ls[1..][j] == l && l !in ls[1..][..j] && rest == ls[1..][..j] + ls[1..][j + 1..];
      assert ls[..j + 1] == [ls[0]] + ls[1..][..j];
      assert ls[j + 2..] == ls[1..][j + 1..];
      AppendAssociates([ls[0]], ls[1..][..j], ls[1..][j + 1..]);
      assert [ls[0]] + rest == ls[..j + 1] + ls[j + 2..];
      assert ls[j + 1] == l && l !in ls[..j + 1];
    }
  }

  /** The result of registerEventListener: the new state, and how checkCredentials ended. */
  datatype Registered = Registered(reg: Registry, outcome: CredentialOutcome)

  /**
   * registerEventListener: append the listener; open a connection for its haId only when the
   * map has none, after checkCredentials. A credential failure leaves the listener appended.
   */
  function Register(r: Registry, l: Listener, grant: GrantResult): (s: Registered)
    ensures s.reg.listeners == r.listeners + [l]
    ensures s.reg.closed == r.closed
    ensures l.haId in r.connections ==> s.reg.connections == r.connections && s.outcome == Ready && s.reg.token == r.token
    ensures l.haId !in r.connections && s.outcome == Ready ==> s.reg.connections == r.connections[l.haId := Sse(r.nextSerial, l)]
    ensures s.outcome != Ready ==> s.reg.connections == r.connections
    ensures s.outcome == ConfigurationError <==> l.haId !in r.connections && !r.simulated && IsEmpty(r.refreshToken)
  {
    var appended := r.(listeners := r.listeners + [l]);
    if l.haId in r.connections then Registered(appended, Ready)
    else
      var c := CheckCredentials(r.simulated, r.refreshToken, r.token, grant);
      if c.outcome != Ready then Registered(appended.(token := c.token), c.outcome)
      else Registered(
        appended.(token := c.token, connections := r.connections[l.haId := Sse(r.nextSerial, l)], nextSerial := r.nextSerial + 1),
        Ready)
  }

  lemma {:induction false} RegisterPreserves(r: Registry, l: Listener, grant: GrantResult)
    requires Valid(r) && NoOrphan(r)
    ensures Valid(Register(r, l, grant).reg) && NoOrphan(Register(r, l, grant).reg)
    ensures Covered(r) && Register(r, l, grant).outcome == Ready ==> Covered(Register(r, l, grant).reg)
  {
    var s := Register(r, l, grant).reg;
    forall h | h in s.connections
      ensures HasListenerFor(s.listeners, h)
    {
      if h == l.haId {
        assert l in s.listeners;
      } else {
        var w: Listener :| w in r.listeners && w.haId == h;
        assert w in s.listeners;
      }
    }
  }

  /**
   * The invariant that every listener has a connection does not survive a failed
   * credential check: the listener stays registered without one.
   */
  lemma RegisterFailureUncovers(r: Registry, l: Listener, grant: GrantResult)
    requires l.haId !in r.connections && Register(r, l, grant).outcome != Ready
    ensures !Covered(Register(r, l, grant).reg)
  {
    assert l in Register(r, l, grant).reg.listeners;
  }

  /**
   * unregisterEventListener: remove one occurrence of the listener; close and drop its haId's
   * connection iff no remaining listener has that haId.
   */
  function Unregister(r: Registry, l: Listener): (s: Registry)
    ensures s.listeners == RemoveFirst(r.listeners, l)
    ensures multiset(s.listeners) == multiset(r.listeners) - multiset{l}
    ensures l.haId in s.connections <==> l.haId in r.connections && HasListenerFor(s.listeners, l.haId)
    ensures forall h :: h != l.haId ==> (h in s.connections <==> h in r.connections)
    ensures forall h :: h in s.connections ==> s.connections[h] == r.connections[h]
    ensures l.haId in r.connections && l.haId !in s.connections ==> s.closed == r.closed + {r.connections[l.haId]}
    ensures l.haId in s.connections || l.haId !in r.connections ==> s.closed == r.closed
    ensures s.token == r.token && s.refreshToken == r.refreshToken && s.simulated == r.simulated
    ensures s.nextSerial == r.nextSerial
  {
    var rest: seq<Listener> := RemoveFirst(r.listeners, l);
    if !HasListenerFor(rest, l.haId) && l.haId in r.connections then
      r.(listeners := rest, connections := r.connections - {l.haId}, closed := r.closed + {r.connections[l.haId]})
    else r.(listeners := rest)
  }

  lemma {:induction false} UnregisterPreserves(r: Registry, l: Listener)
    requires Valid(r)
    ensures Valid(Unregister(r, l))
    ensures Covered(r) ==> Covered(Unregister(r, l))
    ensures NoOrphan(r) ==> NoOrphan(Unregister(r, l))
  {
    UnregisterKeepsValid(r, l);
    if Covered(r) {
      UnregisterKeepsCovered(r, l);
    }
    if NoOrphan(r) {
      UnregisterKeepsNoOrphan(r, l);
    }
  }

  lemma UnregisterKeepsValid(r: Registry, l: Listener)
    requires Valid(r)
    ensures Valid(Unregister(r, l))
  {
  }

  lemma {:induction false} RemoveFirstKeepsOthers(ls: seq<Listener>, l: Listener, x: Listener)
    requires x in RemoveFirst(ls, l)
    ensures x in ls
  {
    if |ls| > 0 && ls[0] != l && x != ls[0] {
      RemoveFirstKeepsOthers(ls[1..], l, x);
    }
  }

  lemma UnregisterKeepsCovered(r: Registry, l: Listener)
    requires Covered(r)
    ensures Covered(Unregister(r, l))
  {
    var s := Unregister(r, l);
    var rest: seq<Listener> := RemoveFirst(r.listeners, l);
    assert s.listeners == rest;
    forall x | x in rest
      ensures x.haId in s.connections
    {
      RemoveFirstKeepsOthers(r.listeners, l, x);
      assert HasListenerFor(rest, x.haId);
    }
  }

  lemma UnregisterKeepsNoOrphan(r: Registry, l: Listener)
    requires NoOrphan(r)
    ensures NoOrphan(Unregister(r, l))
  {
    var s := Unregister(r, l);
    var rest: seq<Listener> := RemoveFirst(r.listeners, l);
    assert s.listeners == rest;
    forall h | h in s.connections
      ensures HasListenerFor(rest, h)
    {
      if h != l.haId {
        var w: Listener :| w in r.listeners && w.haId == h;
        assert w != l;
        assert multiset(rest)[w] == multiset(r.listeners)[w];
        assert w in rest;
      }
    }
  }

  /** dispose: forget every listener, close every connection. */
  function Disposed(r: Registry): (s: Registry)
    ensures s.listeners == [] && s.connections == map[]
    ensures forall h :: h in r.connections ==> r.connections[h] in s.closed
    ensures r.closed <= s.closed && s.token == r.token
    ensures Valid(r) ==> Valid(s) && Covered(s) && NoOrphan(s)
  {
    r.(listeners := [], connections := map[], closed := r.closed + r.connections.Values)
  }

  /** The listeners of a list whose haId is `haId`, in list order. */
  function Matching(ls: seq<Listener>, haId: string): seq<Listener> {
    if |ls| == 0 then []
    else Matching(ls[..|ls| - 1], haId) + (if ls[|ls| - 1].haId == haId then [ls[|ls| - 1]] else [])
  }

  lemma {:induction false} MatchingMember(ls: seq<Listener>, haId: string, l: Listener)
    ensures l in Matching(ls, haId) <==> l in ls && l.haId == haId
  {
    if |ls| > 0 {
      MatchingMember(ls[..|ls| - 1], haId, l);
      assert ls == ls[..|ls| - 1] + [ls[|ls| - 1]];
    }
  }

  /** Filtering keeps list order: the matches of a concatenation are the concatenated matches. */
  lemma {:induction false} MatchingAppend(a: seq<Listener>, b: seq<Listener>, haId: string)
    ensures Matching(a + b, haId) == Matching(a, haId) + Matching(b, haId)
  {
    if |b| == 0 {
      assert a + b == a;
    } else {
      var b' := b[..|b| - 1];
      assert (a + b)[..|a + b| - 1] == a + b';
      MatchingAppend(a, b', haId);
    }
  }

  /** The onEvent calls for one event: every listener of the haId, in list order. */
  function ForEvent(e: Event, ls: seq<Listener>, haId: string): seq<Delivery> {
    if |ls| == 0 then []
    else ForEvent(e, ls[..|ls| - 1], haId) + (if ls[|ls| - 1].haId == haId then [Delivery(ls[|ls| - 1], e)] else [])
  }

  /** For one event, the calls go to exactly the matching listeners, in order. */
  lemma {:induction false} ForEventIsMatching(e: Event, ls: seq<Listener>, haId: string)
    ensures |ForEvent(e, ls, haId)| == |Matching(ls, haId)|
    ensures forall k :: 0 <= k < |Matching(ls, haId)| ==> ForEvent(e, ls, haId)[k] == Delivery(Matching(ls, haId)[k], e)
  {
    if |ls| > 0 {
      ForEventIsMatching(e, ls[..|ls| - 1], haId);
    }
  }

  /** The onEvent calls for a frame: for each event in item order, its calls. */
  function FanOut(events: seq<Event>, ls: seq<Listener>, haId: string): seq<Delivery> {
    if |events| == 0 then []
    else FanOut(events[..|events| - 1], ls, haId) + ForEvent(events[|events| - 1], ls, haId)
  }

  /** A frame reaches a listener with an event iff the event is in the frame and the listener is registered for the haId. */
  lemma {:induction false} FanOutMembers(events: seq<Event>, ls: seq<Listener>, haId: string)
    ensures forall d :: d in FanOut(events, ls, haId) <==> d.event in events && d.listener in ls && d.listener.haId == haId
  {
    if |events| > 0 {
      var init := events[..|events| - 1];
      var e := events[|events| - 1];
      FanOutMembers(init, ls, haId);
      ForEventIsMatching(e, ls, haId);
      assert events == init + [e];
      forall d | d in ForEvent(e, ls, haId)
        ensures d.event == e && d.listener in ls && d.listener.haId == haId
      {
        var k :| 0 <= k < |ForEvent(e, ls, haId)| && ForEvent(e, ls, haId)[k] == d;
        var m := Matching(ls, haId)[k];
        assert d == Delivery(m, e);
        assert m in Matching(ls, haId);
        MatchingMember(ls, haId, m);
      }
      forall d: Delivery | d.event == e && d.listener in ls && d.listener.haId == haId
        ensures d in ForEvent(e, ls, haId)
      {
        MatchingMember(ls, haId, d.listener);
        var k :| 0 <= k < |Matching(ls, haId)| && Matching(ls, haId)[k] == d.listener;
        assert ForEvent(e, ls, haId)[k] == d;
      }
    }
  }

  /** Every call for an earlier event precedes every call for a later one. */
  lemma {:induction false} FanOutAppend(e1: seq<Event>, e2: seq<Event>, ls: seq<Listener>, haId: string)
    ensures FanOut(e1 + e2, ls, haId) == FanOut(e1, ls, haId) + FanOut(e2, ls, haId)
  {
    if |e2| == 0 {
      assert e1 + e2 == e1;
    } else {
      var e2' := e2[..|e2| - 1];
      var last := e2[|e2| - 1];
      assert (e1 + e2)[..|e1 + e2| - 1] == e1 + e2';
      assert (e1 + e2)[|e1 + e2| - 1] == last;
      assert FanOut(e1 + e2, ls, haId) == FanOut(e1 + e2', ls, haId) + ForEvent(last, ls, haId);
      assert FanOut(e2, ls, haId) == FanOut(e2', ls, haId) + ForEvent(last, ls, haId);
      FanOutAppend(e1, e2', ls, haId);
      AppendAssociates(FanOut(e1, ls, haId), FanOut(e2', ls, haId), ForEvent(last, ls, haId));
    }
  }

  /** The result of onRetryError: the new state, and whether the transport should retry itself. */
  datatype RetryDecision = RetryDecision(reg: Registry, retry: bool)

  /**
   * onRetryError as written: on a 401, clear the token and check credentials; on success
   * drop the haId's map entry, remove the connection's owner from the list and register it
   * again. The owner is re-registered even when it was unregistered before the 401.
   */
  function RetryErrorAsWritten(r: Registry, sse: Sse, code: Option<int>, grant: GrantResult): RetryDecision {
    if code != Some(HTTP_UNAUTHORIZED) then RetryDecision(r, true)
    else
      var c := CheckCredentials(r.simulated, r.refreshToken, None, grant);
      if c.outcome != Ready then RetryDecision(r.(token := c.token), false)
      else
        var dropped := r.(token := c.token, connections := r.connections - {sse.HaId()},
                          listeners := RemoveFirst(r.listeners, sse.owner));
        RetryDecision(Register(dropped, sse.owner, grant).reg, false)
  }

  /**
   * The 401 step as written, for every registry: another code only asks the transport to retry;
   * a 401 clears the token and checks credentials; when that succeeds the owner moves to the end
   * of the list and its haId gets a new connection, the old one is not recorded as closed, and
   * every other haId keeps its connection.
   */
  lemma RetryErrorAsWrittenEffect(r: Registry, sse: Sse, code: Option<int>, grant: GrantResult)
    ensures var d := RetryErrorAsWritten(r, sse, code, grant);
      var c := CheckCredentials(r.simulated, r.refreshToken, None, grant);
      && (code != Some(HTTP_UNAUTHORIZED) ==> d == RetryDecision(r, true))
      && (code == Some(HTTP_UNAUTHORIZED) ==> !d.retry && d.reg.token == c.token && d.reg.closed == r.closed)
      && (code == Some(HTTP_UNAUTHORIZED) && c.outcome != Ready ==> d.reg == r.(token := c.token))
      && (code == Some(HTTP_UNAUTHORIZED) && c.outcome == Ready ==>
            && d.reg.listeners == RemoveFirst(r.listeners, sse.owner) + [sse.owner]
            && d.reg.connections == r.connections[sse.HaId() := Sse(r.nextSerial, sse.owner)]
            && d.reg.nextSerial == r.nextSerial + 1)
  {
    var c := CheckCredentials(r.simulated, r.refreshToken, None, grant);
    if code == Some(HTTP_UNAUTHORIZED) && c.outcome == Ready {
      var dropped := r.(token := c.token, connections := r.connections - {sse.HaId()},
                        listeners := RemoveFirst(r.listeners, sse.owner));
      assert sse.owner.haId !in dropped.connections;
      RecheckAfterGrant(r.simulated, r.refreshToken, grant);
      assert (r.connections - {sse.HaId()})[sse.HaId() := Sse(r.nextSerial, sse.owner)]
          == r.connections[sse.HaId() := Sse(r.nextSerial, sse.owner)];
    }
  }

  /** A check right after a successful one from an empty token, with the same grant answer, changes nothing. */
  lemma RecheckAfterGrant(simulated: bool, refreshToken: Option<string>, grant: GrantResult)
    requires CheckCredentials(simulated, refreshToken, None, grant).outcome == Ready
    ensures var c := CheckCredentials(simulated, refreshToken, None, grant);
      CheckCredentials(simulated, refreshToken, c.token, grant) == c
  {
  }

  /** Registering into an empty registry with usable credentials opens the listener's connection. */
  lemma RegisterIntoEmpty(r: Registry, l: Listener, g: GrantResult)
    requires r.listeners == [] && r.connections == map[]
    requires g.Granted? && (r.simulated || !IsEmpty(r.refreshToken))
    ensures Register(r, l, g).reg.listeners == [l]
    ensures Register(r, l, g).reg.connections == map[l.haId := Sse(r.nextSerial, l)]
  {
    assert CheckCredentials(r.simulated, r.refreshToken, r.token, g).outcome == Ready;
  }

  /**
   * A connection opened by L1 outlives L1's unregistration when L2 listens to the same
   * appliance; a 401 on it then puts L1 back on the list.
   */
  lemma ResurrectionAsWritten(r0: Registry, l1: Listener, l2: Listener, g: GrantResult)
    requires r0.listeners == [] && r0.connections == map[]
    requires l1 != l2 && l1.haId == l2.haId
    requires g.Granted? && (r0.simulated || !IsEmpty(r0.refreshToken))
    ensures var r3 := Unregister(Register(Register(r0, l1, g).reg, l2, g).reg, l1);
      && l1 !in r3.listeners
      && r3.connections == map[l1.haId := Sse(r0.nextSerial, l1)]
      && RetryErrorAsWritten(r3, Sse(r0.nextSerial, l1), Some(HTTP_UNAUTHORIZED), g).reg.listeners == [l2, l1]
  {
    Scenario(r0, l1, l2, g);
    GrantReady(r0.simulated, r0.refreshToken, g);
    ResurrectTwo(Unregister(Register(Register(r0, l1, g).reg, l2, g).reg, l1), r0.nextSerial, l1, l2, g);
  }

  lemma PairAppend(a: Listener, b: Listener)
    ensures [a] + [b] == [a, b]
  {
  }

  /** The 401 step on the scenario's registry: L1 comes back after L2. */
  lemma ResurrectTwo(r3: Registry, n: nat, l1: Listener, l2: Listener, g: GrantResult)
    requires r3.listeners == [l2] && l1 != l2
    requires CheckCredentials(r3.simulated, r3.refreshToken, None, g).outcome == Ready
    ensures RetryErrorAsWritten(r3, Sse(n, l1), Some(HTTP_UNAUTHORIZED), g).reg.listeners == [l2, l1]
  {
    ResurrectionStep(r3, n, l1, g);
    PairAppend(l2, l1);
  }

  /** The registry of the scenario just before the 401: only L2 listed, L1's connection still open. */
  lemma Scenario(r0: Registry, l1: Listener, l2: Listener, g: GrantResult)
    requires r0.listeners == [] && r0.connections == map[]
    requires l1 != l2 && l1.haId == l2.haId
    requires g.Granted? && (r0.simulated || !IsEmpty(r0.refreshToken))
    ensures var r3 := Unregister(Register(Register(r0, l1, g).reg, l2, g).reg, l1);
      && r3.listeners == [l2]
      && r3.connections == map[l1.haId := Sse(r0.nextSerial, l1)]
      && r3.simulated == r0.simulated && r3.refreshToken == r0.refreshToken
  {
    var r2 := Register(Register(r0, l1, g).reg, l2, g).reg;
    RegisterTwo(r0, l1, l2, g);
    UnregisterFirstOfTwo(r2, l1, l2);
  }

  /** From an empty token, a granted token endpoint makes checkCredentials succeed wherever it is configured. */
  lemma GrantReady(simulated: bool, refreshToken: Option<string>, g: GrantResult)
    requires g.Granted? && (simulated || !IsEmpty(refreshToken))
    ensures CheckCredentials(simulated, refreshToken, None, g).outcome == Ready
  {
  }

  /** Two listeners for one appliance share the connection the first one opened. */
  lemma RegisterTwo(r0: Registry, l1: Listener, l2: Listener, g: GrantResult)
    requires r0.listeners == [] && r0.connections == map[]
    requires l1.haId == l2.haId
    requires g.Granted? && (r0.simulated || !IsEmpty(r0.refreshToken))
    ensures var r2 := Register(Register(r0, l1, g).reg, l2, g).reg;
      && r2.listeners == [l1, l2] && r2.connections == map[l1.haId := Sse(r0.nextSerial, l1)]
      && r2.simulated == r0.simulated && r2.refreshToken == r0.refreshToken
  {
    RegisterIntoEmpty(r0, l1, g);
    var r1 := Register(r0, l1, g).reg;
    assert r1.simulated == r0.simulated && r1.refreshToken == r0.refreshToken;
  }

  /** Unregistering the first of two listeners for one appliance keeps the connection. */
  lemma UnregisterFirstOfTwo(r2: Registry, l1: Listener, l2: Listener)
    requires r2.listeners == [l1, l2] && l1 != l2 && l1.haId == l2.haId
    ensures var r3 := Unregister(r2, l1);
      && r3.listeners == [l2] && r3.connections == r2.connections
      && r3.simulated == r2.simulated && r3.refreshToken == r2.refreshToken
  {
    assert RemoveFirst([l1, l2], l1) == [l2];
    assert l2 in [l2];
    assert HasListenerFor([l2], l1.haId);
  }

  /**
   * The 401 step of the scenario above, for any registry: a connection owner that is no longer
   * listed is appended to the list again.
   */
  lemma ResurrectionStep(r3: Registry, n: nat, l1: Listener, g: GrantResult)
    requires l1 !in r3.listeners
    requires CheckCredentials(r3.simulated, r3.refreshToken, None, g).outcome == Ready
    ensures RetryErrorAsWritten(r3, Sse(n, l1), Some(HTTP_UNAUTHORIZED), g).reg.listeners == r3.listeners + [l1]
  {
    RetryErrorAsWrittenEffect(r3, Sse(n, l1), Some(HTTP_UNAUTHORIZED), g);
  }

  /**
   * onRetryError with the subscription rebuilt for the same listener set: on a 401, clear
   * the token and check credentials; on success replace the haId's connection by a new one
   * if some listener still listens to that appliance. The listener list is not touched.
   */
  function RetryError(r: Registry, sse: Sse, code: Option<int>, grant: GrantResult): (d: RetryDecision)
    ensures d.reg.listeners == r.listeners
    ensures d.retry <==> code != Some(HTTP_UNAUTHORIZED)
    ensures d.retry ==> d.reg == r
  {
    if code != Some(HTTP_UNAUTHORIZED) then RetryDecision(r, true)
    else
      var c := CheckCredentials(r.simulated, r.refreshToken, None, grant);
      if c.outcome != Ready then RetryDecision(r.(token := c.token), false)
      else if HasListenerFor(r.listeners, sse.HaId()) then
        RetryDecision(r.(token := c.token, connections := r.connections[sse.HaId() := Sse(r.nextSerial, sse.owner)],
                         nextSerial := r.nextSerial + 1), false)
      else RetryDecision(r.(token := c.token, connections := r.connections - {sse.HaId()}), false)
  }

  /** After a 401 the client holds a fresh connection for the haId iff one is still wanted, and keeps its invariants. */
  lemma RetryErrorPreserves(r: Registry, sse: Sse, code: Option<int>, grant: GrantResult)
    requires Valid(r)
    ensures var d := RetryError(r, sse, code, grant);
      && Valid(d.reg)
      && (Covered(r) ==> Covered(d.reg))
      && (NoOrphan(r) ==> NoOrphan(d.reg))
      && (forall h :: h != sse.HaId() && h in r.connections ==> h in d.reg.connections && d.reg.connections[h] == r.connections[h])
      && (code == Some(HTTP_UNAUTHORIZED) && CheckCredentials(r.simulated, r.refreshToken, None, grant).outcome == Ready ==>
            (sse.HaId() in d.reg.connections <==> HasListenerFor(r.listeners, sse.HaId())))
  {
  }

  /** The client object: the fields of HomeConnectApiClient that the registry and the token flows use. */
  class ApiClient {
    const simulated: bool
    const refreshToken: Option<string>
    var token: Option<string>
    var eventListeners: seq<Listener>
    var serverSentEvent: map<string, Sse>
    var closed: set<Sse>
    var nextSerial: nat

    function State(): Registry
      reads this
    {
      Registry(simulated, refreshToken, token, eventListeners, serverSentEvent, closed, nextSerial)
    }

    constructor (simulated: bool, refreshToken: Option<string>)
      ensures State() == Initial(simulated, refreshToken)
    {
      this.simulated := simulated;
      this.refreshToken := refreshToken;
      token := None;
      eventListeners := [];
      serverSentEvent := map[];
      closed := {};
      nextSerial := 0;
    }

    /** checkCredentials: only the token changes. */
    method CheckCredentials(grant: GrantResult) returns (outcome: CredentialOutcome)
      modifies this
      ensures var c := Credentials.CheckCredentials(simulated, refreshToken, old(token), grant);
        State() == old(State()).(token := c.token) && outcome == c.outcome
    {
      var flow := ChooseFlow(simulated, refreshToken, token);
      if flow == MissingRefreshToken {
        return ConfigurationError;
      }
      outcome := Ready;
      if flow != NoFlow {
        if grant.Granted? {
          token := Some(grant.accessToken);
        } else {
          token := None;
          outcome := CommunicationError;
        }
      }
    }

    method RegisterEventListener(l: Listener, grant: GrantResult) returns (outcome: CredentialOutcome)
      modifies this
      ensures var s := Register(old(State()), l, grant); State() == s.reg && outcome == s.outcome
    {
      eventListeners := eventListeners + [l];
      outcome := Ready;
      if l.haId !in serverSentEvent {
        outcome := CheckCredentials(grant);
        if outcome != Ready {
          return;
        }
        serverSentEvent := serverSentEvent[l.haId := Sse(nextSerial, l)];
        nextSerial := nextSerial + 1;
      }
    }

    method UnregisterEventListener(l: Listener)
      modifies this
      ensures State() == Unregister(old(State()), l)
    {
      ghost var before := State();
      eventListeners := RemoveFirst(eventListeners, l);
      var haId := l.haId;
      var needToRemoveSse := true;
      var i := 0;
      while i < |eventListeners|
        invariant 0 <= i <= |eventListeners|
        invariant needToRemoveSse <==> forall k :: 0 <= k < i ==> eventListeners[k].haId != haId
      {
        if eventListeners[i].haId == haId {
          needToRemoveSse := false;
        }
        i := i + 1;
      }
      HasListenerForIndex(eventListeners, haId);
      assert needToRemoveSse <==> !HasListenerFor(eventListeners, haId);
      if needToRemoveSse && haId in serverSentEvent {
        closed := closed + {serverSentEvent[haId]};
        serverSentEvent := serverSentEvent - {haId};
        assert State() == before.(listeners := eventListeners, connections := before.connections - {haId},
                                  closed := before.closed + {before.connections[haId]});
      } else {
        assert State() == before.(listeners := eventListeners);
      }
    }

    method Dispose()
      modifies this
      ensures State() == Disposed(old(State()))
    {
      eventListeners := [];
      var pending := serverSentEvent.Keys;
      while pending != {}
        invariant serverSentEvent == old(serverSentEvent) && eventListeners == [] && token == old(token)
        invariant nextSerial == old(nextSerial)
        invariant pending <= serverSentEvent.Keys
        invariant closed == old(closed) + set h | h in serverSentEvent.Keys - pending :: serverSentEvent[h]
        decreases pending
      {
        var h :| h in pending;
        closed := closed + {serverSentEvent[h]};
        pending := pending - {h};
      }
      assert serverSentEvent.Keys - pending == serverSentEvent.Keys;
      ValuesAsImage(serverSentEvent);
      serverSentEvent := map[];
    }

    /**
     * onMessage of the connection `sse`: a null or empty message (keep-alive) dispatches
     * nothing; otherwise every decoded event goes to every listener of the connection's haId.
     * The calls are returned in the order they are made.
     */
    method OnMessage(sse: Sse, message: Option<string>, items: seq<JsonItem>) returns (deliveries: seq<Delivery>)
      ensures IsEmpty(message) || !AllReadable(items) ==> deliveries == []
      ensures !IsEmpty(message) && AllReadable(items) ==>
        deliveries == FanOut(EventsOf(items).value, eventListeners, sse.HaId())
    {
      deliveries := [];
      if IsEmpty(message) {
        return;
      }
      var decoded := MapToEvents(items);
      if decoded.None? {
        return;
      }
      var events := decoded.value;
      var i := 0;
      while i < |events|
        invariant 0 <= i <= |events|
        invariant deliveries == FanOut(events[..i], eventListeners, sse.HaId())
      {
        var j := 0;
        while j < |eventListeners|
          invariant 0 <= j <= |eventListeners|
          invariant deliveries == FanOut(events[..i], eventListeners, sse.HaId()) + ForEvent(events[i], eventListeners[..j], sse.HaId())
        {
          if eventListeners[j].haId == sse.HaId() {
            deliveries := deliveries + [Delivery(eventListeners[j], events[i])];
          }
          assert eventListeners[..j + 1][..j] == eventListeners[..j];
          j := j + 1;
        }
        assert eventListeners[..j] == eventListeners;
        assert events[..i + 1][..i] == events[..i];
        i := i + 1;
      }
      assert events[..i] == events;
    }

    /** onPreRetry: onReconnect goes to exactly the listeners of the connection's haId; the request is handed back as is. */
    method OnPreRetry(sse: Sse, request: Request) returns (notified: seq<Listener>, r: Request)
      ensures notified == Matching(eventListeners, sse.HaId())
      ensures r == request
    {
      notified := [];
      var i := 0;
      while i < |eventListeners|
        invariant 0 <= i <= |eventListeners|
        invariant notified == Matching(eventListeners[..i], sse.HaId())
      {
        if eventListeners[i].haId == sse.HaId() {
          notified := notified + [eventListeners[i]];
        }
        assert eventListeners[..i + 1][..i] == eventListeners[..i];
        i := i + 1;
      }
      assert eventListeners[..i] == eventListeners;
      r := request;
    }

    /** onRetryError of the connection `sse`, with the subscription rebuilt for the same listener set. */
    method OnRetryError(sse: Sse, code: Option<int>, grant: GrantResult) returns (retry: bool)
      modifies this
      ensures var d := RetryError(old(State()), sse, code, grant); State() == d.reg && retry == d.retry
    {
      if code != Some(HTTP_UNAUTHORIZED) {
        return true;
      }
      token := None;
      var outcome := CheckCredentials(grant);
      if outcome == Ready {
        var haId := sse.HaId();
        if HasListenerFor(eventListeners, haId) {
          serverSentEvent := serverSentEvent[haId := Sse(nextSerial, sse.owner)];
          nextSerial := nextSerial + 1;
        } else {
          serverSentEvent := serverSentEvent - {haId};
        }
      }
      return false;
    }

    /** getActiveProgram, one attempt: checkCredentials, then the reply's classification; a 401 clears the token. */
    method GetActiveProgram(grant: GrantResult, reply: Reply) returns (r: ProgramResult)
      modifies this
      ensures var c := Credentials.CheckCredentials(simulated, refreshToken, old(token), grant);
        && r == GetProgramAttempt(c.outcome, reply)
        && State() == old(State()).(token := if r == Retry then None else c.token)
    {
      var outcome := CheckCredentials(grant);
      if outcome != Ready {
        return Thrown(outcome);
      }
      if reply.IoFailure? {
        return NoProgram;
      }
      token := TokenAfterResponse(PROGRAM_CODES, reply.code, token);
      match ClassifyResponse(PROGRAM_CODES, reply.code)
      case InvalidToken =>
        r := Retry;
      case Failure(_) =>
        r := Thrown(CommunicationError);
      case Accepted =>
        if reply.code == HTTP_OK {
          var program := MapToProgram(reply.body);
          r := if program.Some? then Found(program.value) else Malformed;
        } else {
          r := NoProgram;
        }
    }
  }
}
