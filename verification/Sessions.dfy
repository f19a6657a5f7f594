/** The session protocol of internal/adapter/geotab/client.go: callers share one
    session, and the lock held across Authenticate makes its replacement
    single-flight. */
module Sessions {
  import opened Basics

  /** A session id with the server that issued it; issue numbers the successful
      Authenticate it came from, which is what comparing references amounts to. */
  datatype Session = Session(issue: nat, id: string, url: string)

  datatype AuthReply = Refuses | Answers(sessionId: string, path: string)

  const THIS_SERVER := "ThisServer"

  datatype Server = Server(configured: string, endpoint: string -> string)

  /** authenticate: the session the reply amounts to, if any. */
  function Issued(srv: Server, reply: AuthReply, issue: nat): Option<Session> {
    if reply.Refuses? || reply.sessionId == "" then None
    else if reply.path != "" && reply.path != THIS_SERVER
    then Some(Session(issue, reply.sessionId, srv.endpoint(reply.path)))
    else Some(Session(issue, reply.sessionId, srv.configured))
  }

  /** refresh's decision: another caller already replaced what this one holds. */
  predicate AlreadyRenewed(sess: Option<Session>, stale: Option<Session>) {
    sess.Some? && sess != stale
  }

  class Client {
    var sess: Option<Session>
    var issues: nat
    const srv: Server

    constructor (srv: Server)
      ensures sess == None && issues == 0 && this.srv == srv
    {
      this.srv := srv;
      sess, issues := None, 0;
    }

    /** refresh, under the lock throughout. reply is what Authenticate would answer;
        asked says whether it was called. */
    method Refresh(stale: Option<Session>, reply: AuthReply) returns (result: Option<Session>, asked: bool)
      modifies this
      ensures asked <==> !AlreadyRenewed(old(sess), stale)
      ensures !asked ==> result == old(sess) && sess == old(sess) && issues == old(issues)
      ensures asked ==> result == Issued(srv, reply, old(issues))
      // that is: a session exactly for an id, at the server the reply names
      ensures asked ==> (result.Some? <==> reply.Answers? && reply.sessionId != "")
      ensures asked && result.Some? ==>
        && result.value.issue == old(issues) && result.value.id == reply.sessionId
        && (reply.path != "" && reply.path != THIS_SERVER ==> result.value.url == srv.endpoint(reply.path))
        && (reply.path == "" || reply.path == THIS_SERVER ==> result.value.url == srv.configured)
      ensures asked && result.None? ==> sess == old(sess) && issues == old(issues)
      ensures asked && result.Some? ==> sess == result && issues == old(issues) + 1
    {
      if sess != None && sess != stale {
        return sess, false;
      }
      var s := Issued(srv, reply, issues);
      if s == None {
        return None, true;
      }
      sess, issues := s, issues + 1;
      return s, true;
    }
  }

  // ---- any number of callers ----

  datatype Phase =
    | Entering
    | First                       // current saw no session; refresh(nil) is next
    | Posting(s: Session, again: bool)
    | Renewing(s: Session)        // s was rejected; refresh(s) is next
    | Done(ok: bool)

  /** asked and renewals count the Authenticate calls one call makes, all of them
      and the ones after a rejection. */
  datatype Caller = Caller(phase: Phase, asked: nat, renewals: nat, posts: nat)

  datatype Swap = Swap(replaced: Option<Session>, issued: Session)

  datatype Post = Post(id: string, url: string)

  datatype State = State(sess: Option<Session>, callers: seq<Caller>, swaps: seq<Swap>, posts: seq<Post>)

  datatype Reply = Fine | Rejected | Broken

  datatype Action =
    | Enter(i: nat)
    | RefreshFirst(i: nat, auth: AuthReply)
    | Answered(i: nat, reply: Reply)
    | Renew(i: nat, auth: AuthReply)

  predicate Enabled(s: State, a: Action) {
    && a.i < |s.callers|
    && match a
       case Enter(i) => s.callers[i].phase.Entering?
       case RefreshFirst(i, _) => s.callers[i].phase.First?
       case Answered(i, _) => s.callers[i].phase.Posting?
       case Renew(i, _) => s.callers[i].phase.Renewing?
  }

  /** A caller coming out of refresh(stale): with the shared session, with one it
      obtained, or with an error. */
  function AfterRefresh(srv: Server, s: State, i: nat, stale: Option<Session>, auth: AuthReply): State
    requires i < |s.callers|
  {
    var c := s.callers[i];
    var again := stale.Some?;
    if AlreadyRenewed(s.sess, stale) then
      s.(callers := s.callers[i := c.(phase := Posting(s.sess.value, again))])
    else
      var renewals := if again then c.renewals + 1 else c.renewals;
      match Issued(srv, auth, |s.swaps|)
      case None => s.(callers := s.callers[i := c.(phase := Done(false), asked := c.asked + 1, renewals := renewals)])
      case Some(n) =>
        s.(sess := Some(n),
           callers := s.callers[i := c.(phase := Posting(n, again), asked := c.asked + 1, renewals := renewals)],
           swaps := s.swaps + [Swap(s.sess, n)])
  }

  function Next(srv: Server, s: State, a: Action): State
    requires Enabled(s, a)
  {
    var c := s.callers[a.i];
    match a
    case Enter(i) =>
      s.(callers := s.callers[i := c.(phase := if s.sess.Some? then Posting(s.sess.value, false) else First)])
    case RefreshFirst(i, auth) => AfterRefresh(srv, s, i, None, auth)
    case Answered(i, reply) =>
      var p := c.phase;
      var next := match reply
        case Fine => Done(true)
        case Broken => Done(false)
        case Rejected => if p.again then Done(false) else Renewing(p.s);
      s.(callers := s.callers[i := c.(phase := next, posts := c.posts + 1)], posts := s.posts + [Home(p.s)])
    case Renew(i, auth) => AfterRefresh(srv, s, i, Some(c.phase.s), auth)
  }

  function Init(n: nat): State {
    State(None, seq(n, _ => Caller(Entering, 0, 0, 0)), [], [])
  }

  function Current(swaps: seq<Swap>): Option<Session> {
    if swaps == [] then None else Some(swaps[|swaps| - 1].issued)
  }

  predicate Known(swaps: seq<Swap>, s: Session) {
    s.issue < |swaps| && swaps[s.issue].issued == s
  }

  predicate CallerOk(swaps: seq<Swap>, c: Caller) {
    && (c.phase.Posting? ==> Known(swaps, c.phase.s))
    && (c.phase.Renewing? ==> Known(swaps, c.phase.s))
    && c.renewals <= c.asked <= c.renewals + 1 && c.renewals <= 1 && c.posts <= 2
    && (c.phase.Entering? || c.phase.First? ==> c.asked == 0 && c.posts == 0)
    && (c.phase.Posting? ==> c.posts == if c.phase.again then 1 else 0)
    && (c.phase.Posting? && !c.phase.again ==> c.renewals == 0)
    && (c.phase.Renewing? ==> c.renewals == 0 && c.posts == 1)
  }

  predicate Link(swaps: seq<Swap>, n: nat)
    requires n < |swaps|
  {
    swaps[n].issued.issue == n && swaps[n].replaced == Current(swaps[..n])
  }

  /** The swaps form one chain from no session to the current one. */
  predicate Chain(swaps: seq<Swap>) {
    forall n :: 0 <= n < |swaps| ==> Link(swaps, n)
  }

  predicate Chained(s: State) {
    s.sess == Current(s.swaps) && Chain(s.swaps)
  }

  function Home(s: Session): Post {
    Post(s.id, s.url)
  }

  predicate PostOk(swaps: seq<Swap>, p: Post) {
    exists n :: 0 <= n < |swaps| && Home(swaps[n].issued) == p
  }

  predicate Inv(s: State) {
    && Chained(s)
    && (forall i :: 0 <= i < |s.callers| ==> CallerOk(s.swaps, s.callers[i]))
    && (forall n :: 0 <= n < |s.posts| ==> PostOk(s.swaps, s.posts[n]))
  }

  lemma ChainGrows(swaps: seq<Swap>, issued: Session)
    requires Chain(swaps) && issued.issue == |swaps|
    ensures Chain(swaps + [Swap(Current(swaps), issued)])
    ensures Current(swaps + [Swap(Current(swaps), issued)]) == Some(issued)
  {
    var after := swaps + [Swap(Current(swaps), issued)];
    forall n | 0 <= n < |after| ensures Link(after, n) {
      assert after[..n] == swaps[..n];
      if n < |swaps| {
        assert Link(swaps, n);
      } else {
        assert swaps[..n] == swaps;
      }
    }
  }

  lemma PostStaysOk(swaps: seq<Swap>, swap: Swap, p: Post)
    requires PostOk(swaps, p)
    ensures PostOk(swaps + [swap], p)
  {
    var m :| 0 <= m < |swaps| && Home(swaps[m].issued) == p;
    assert (swaps + [swap])[m] == swaps[m];
  }

  lemma CallerStaysOk(swaps: seq<Swap>, swap: Swap, c: Caller)
    requires CallerOk(swaps, c)
    ensures CallerOk(swaps + [swap], c)
  {
  }

  /** What a refresh leaves of the chain. */
  lemma AfterRefreshChained(srv: Server, s: State, i: nat, stale: Option<Session>, auth: AuthReply)
    requires Chained(s) && i < |s.callers|
    ensures Chained(AfterRefresh(srv, s, i, stale, auth))
  {
    var s' := AfterRefresh(srv, s, i, stale, auth);
    if s'.swaps != s.swaps {
      ChainGrows(s.swaps, s'.sess.value);
      assert s'.swaps == s.swaps + [Swap(Current(s.swaps), s'.sess.value)];
    }
  }

  /** And of the caller that made it. */
  lemma AfterRefreshCaller(srv: Server, s: State, i: nat, stale: Option<Session>, auth: AuthReply)
    requires Chained(s) && i < |s.callers| && CallerOk(s.swaps, s.callers[i])
    requires if stale.Some? then s.callers[i].phase == Renewing(stale.value) else s.callers[i].phase.First?
    ensures |AfterRefresh(srv, s, i, stale, auth).callers| == |s.callers|
    ensures CallerOk(AfterRefresh(srv, s, i, stale, auth).swaps, AfterRefresh(srv, s, i, stale, auth).callers[i])
  {
    if AlreadyRenewed(s.sess, stale) {
      assert Link(s.swaps, |s.swaps| - 1);
    }
  }

  lemma AfterRefreshInv(srv: Server, s: State, i: nat, stale: Option<Session>, auth: AuthReply)
    requires Inv(s) && i < |s.callers|
    requires if stale.Some? then s.callers[i].phase == Renewing(stale.value) else s.callers[i].phase.First?
    ensures Inv(AfterRefresh(srv, s, i, stale, auth))
  {
    var s' := AfterRefresh(srv, s, i, stale, auth);
    AfterRefreshChained(srv, s, i, stale, auth);
    AfterRefreshCaller(srv, s, i, stale, auth);
    if s'.swaps != s.swaps {
      var swap := s'.swaps[|s.swaps|];
      assert s'.swaps == s.swaps + [swap];
      forall n | 0 <= n < |s'.posts| ensures PostOk(s'.swaps, s'.posts[n]) {
        PostStaysOk(s.swaps, swap, s.posts[n]);
      }
      forall k | 0 <= k < |s'.callers| && k != i ensures CallerOk(s'.swaps, s'.callers[k]) {
        CallerStaysOk(s.swaps, swap, s.callers[k]);
      }
    }
  }

  lemma StepInv(srv: Server, s: State, a: Action)
    requires Enabled(s, a) && Inv(s)
    ensures Inv(Next(srv, s, a))
  {
    assert CallerOk(s.swaps, s.callers[a.i]);
    assert s.swaps != [] ==> Link(s.swaps, |s.swaps| - 1);
    match a
    case RefreshFirst(i, auth) => AfterRefreshInv(srv, s, i, None, auth);
    case Renew(i, auth) => AfterRefreshInv(srv, s, i, Some(s.callers[i].phase.s), auth);
    case Answered(i, _) =>
      var held := s.callers[i].phase.s;
      assert Home(s.swaps[held.issue].issued) == Home(held);
    case _ =>
  }

  ghost predicate IsRun(srv: Server, states: seq<State>, acts: seq<Action>) {
    && |states| == |acts| + 1 && states[0] == Init(|states[0].callers|)
    && forall n :: 0 <= n < |acts| ==> Enabled(states[n], acts[n]) && states[n + 1] == Next(srv, states[n], acts[n])
  }

  lemma {:induction false} RunInv(srv: Server, states: seq<State>, acts: seq<Action>, n: nat)
    requires IsRun(srv, states, acts) && n < |states|
    ensures Inv(states[n])
  {
    if n == 0 {
    } else {
      RunInv(srv, states, acts, n - 1);
      StepInv(srv, states[n - 1], acts[n - 1]);
    }
  }

  /** Each session, and the absence of one, is replaced at most once, however many
      callers found it stale at the same time. */
  lemma ReplacedAtMostOnce(srv: Server, states: seq<State>, acts: seq<Action>, n: nat, a: nat, b: nat)
    requires IsRun(srv, states, acts) && n < |states| && a < b < |states[n].swaps|
    ensures states[n].swaps[a].replaced != states[n].swaps[b].replaced
  {
    RunInv(srv, states, acts, n);
    var swaps := states[n].swaps;
    assert Link(swaps, a) && Link(swaps, b) && Link(swaps, b - 1);
    if a > 0 {
      assert Link(swaps, a - 1);
    }
  }

  /** A caller whose session was rejected comes out with a later one, or an error. */
  lemma RenewalIsLater(srv: Server, states: seq<State>, acts: seq<Action>, n: nat)
    requires IsRun(srv, states, acts) && n < |acts| && acts[n].Renew?
    ensures
      var i := acts[n].i;
      i < |states[n].callers| && states[n].callers[i].phase.Renewing? && i < |states[n + 1].callers|
      && match states[n + 1].callers[i].phase
         case Posting(s, again) => again && s.issue > states[n].callers[i].phase.s.issue && states[n + 1].sess == Some(s)
         case Done(ok) => !ok
         case _ => false
  {
    RunInv(srv, states, acts, n);
    assert CallerOk(states[n].swaps, states[n].callers[acts[n].i]);
    if states[n].swaps != [] {
      assert Link(states[n].swaps, |states[n].swaps| - 1);
    }
  }

  /** One call posts at most twice and authenticates at most twice, re-authenticating
      at most once. */
  lemma CallIsBounded(srv: Server, states: seq<State>, acts: seq<Action>, n: nat, i: nat)
    requires IsRun(srv, states, acts) && n < |states| && i < |states[n].callers|
    ensures states[n].callers[i].posts <= 2 && states[n].callers[i].asked <= 2 && states[n].callers[i].renewals <= 1
  {
    RunInv(srv, states, acts, n);
    assert CallerOk(states[n].swaps, states[n].callers[i]);
  }

  /** The Authenticate reply this step got gives this id, at this url: the server the
      reply's path names, or the configured one for no path or ThisServer. */
  predicate Names(srv: Server, a: Action, p: Post) {
    && (a.RefreshFirst? || a.Renew?) && a.auth.Answers?
    && a.auth.sessionId == p.id && p.id != ""
    && (a.auth.path != "" && a.auth.path != THIS_SERVER ==> p.url == srv.endpoint(a.auth.path))
    && (a.auth.path == "" || a.auth.path == THIS_SERVER ==> p.url == srv.configured)
  }

  /** A step adds a swap only by authenticating, and its reply names what is issued. */
  lemma StepNames(srv: Server, s: State, a: Action)
    requires Enabled(s, a)
    ensures |s.swaps| <= |Next(srv, s, a).swaps| <= |s.swaps| + 1 && s.swaps <= Next(srv, s, a).swaps
    ensures |Next(srv, s, a).swaps| > |s.swaps| ==> Names(srv, a, Home(Next(srv, s, a).swaps[|s.swaps|].issued))
  {
  }

  /** Every session is what the reply of the step that obtained it names. */
  lemma {:induction false} IssuedAsNamed(srv: Server, states: seq<State>, acts: seq<Action>, n: nat, w: nat)
    requires IsRun(srv, states, acts) && n < |states| && w < |states[n].swaps|
    ensures exists m :: 0 <= m < n && |states[m].swaps| == w && Names(srv, acts[m], Home(states[n].swaps[w].issued))
  {
    if n > 0 {
      StepNames(srv, states[n - 1], acts[n - 1]);
      if w < |states[n - 1].swaps| {
        IssuedAsNamed(srv, states, acts, n - 1, w);
      }
    }
  }

  /** A session id is only ever posted to the url named by the Authenticate reply it
      came in. */
  lemma SessionStaysHome(srv: Server, states: seq<State>, acts: seq<Action>, n: nat, k: nat)
    requires IsRun(srv, states, acts) && n < |states| && k < |states[n].posts|
    ensures exists m :: 0 <= m < n && Names(srv, acts[m], states[n].posts[k])
  {
    RunInv(srv, states, acts, n);
    assert PostOk(states[n].swaps, states[n].posts[k]);
    var w: nat :| w < |states[n].swaps| && Home(states[n].swaps[w].issued) == states[n].posts[k];
    IssuedAsNamed(srv, states, acts, n, w);
  }

  /** How often a caller's posts were answered. */
  function AnswersTo(acts: seq<Action>, i: nat): nat {
    if acts == [] then 0
    else
      var last := acts[|acts| - 1];
      AnswersTo(acts[..|acts| - 1], i) + (if last.Answered? && last.i == i then 1 else 0)
  }

  lemma StepPosts(srv: Server, s: State, a: Action, i: nat)
    requires Enabled(s, a) && i < |s.callers|
    ensures |Next(srv, s, a).callers| == |s.callers|
    ensures Next(srv, s, a).callers[i].posts == s.callers[i].posts + (if a.Answered? && a.i == i then 1 else 0)
  {
  }

  lemma {:induction false} PostsAreAnswers(srv: Server, states: seq<State>, acts: seq<Action>, n: nat, i: nat)
    requires IsRun(srv, states, acts) && n < |states| && i < |states[n].callers|
    ensures states[n].callers[i].posts == AnswersTo(acts[..n], i)
  {
    if n > 0 {
      assert |states[n].callers| == |states[n - 1].callers|;
      PostsAreAnswers(srv, states, acts, n - 1, i);
      StepPosts(srv, states[n - 1], acts[n - 1], i);
      assert acts[..n][..n - 1] == acts[..n - 1];
    }
  }

  /** What an answer leads to: success and any failure but one end the call. The one
      is a first answer saying that the session is no good, which is then renewed. */
  lemma AnswerDecides(srv: Server, states: seq<State>, acts: seq<Action>, n: nat)
    requires IsRun(srv, states, acts) && n < |acts| && acts[n].Answered?
    ensures acts[n].i < |states[n].callers| == |states[n + 1].callers| && states[n].callers[acts[n].i].phase.Posting?
    ensures
      var i := acts[n].i;
      states[n + 1].callers[i].phase
      == match acts[n].reply
         case Fine => Done(true)
         case Broken => Done(false)
         case Rejected =>
           if AnswersTo(acts[..n], i) == 0 then Renewing(states[n].callers[i].phase.s) else Done(false)
  {
    RunInv(srv, states, acts, n);
    PostsAreAnswers(srv, states, acts, n, acts[n].i);
    assert CallerOk(states[n].swaps, states[n].callers[acts[n].i]);
  }
}
