/**
  Logins: the dictionary of operators agrees with the sockets, and a username is logged in on one
  socket only exactly as long as every login finds its name free when it is entered.
 */
module RegistryLogins {
  import opened Wrappers
  import opened RegistryRecord
  import opened RegistrySteps
  import opened RegistryInvariant
  import opened RegistrySafety
  import opened RegistryFrames
  import opened RegistryRuns

  /** No username is logged in on two sockets. */
  predicate Uniq(h: Hub) {
    forall a, b :: a in h.wsUser && b in h.wsUser && h.wsUser[a] == h.wsUser[b] ==> a == b
  }

  /** The dictionary leads from a socket's username back to the socket. */
  predicate Back(h: Hub) {
    forall ws :: ws in h.wsUser ==> h.wsUser[ws] in h.operatorWs && h.operatorWs[h.wsUser[ws]] == ws
  }

  /** A login that is entered now finds nobody in the dictionary under its name. */
  predicate FindsNameFree(h: Hub, e: Event) {
    e.LoginCommit? && e.ws in h.pcs && h.pcs[e.ws].LoginReply? ==> h.pcs[e.ws].username !in h.operatorWs
  }

  lemma OthersKeepLogins(w: World, e: Event)
    requires !ChangesLogins(e)
    ensures SameLogins(w.hub, Step(w, e).hub)
  {
    hide SameLogins, NoNewRobots, SameDone;
    if e.DropLocked? {
      hide OnDropLocked;
      DropLockedFramed(w, e.ws);
    } else {
      hide Step;
      if ByRobot(e) {
        RobotsFramed(w, e);
      } else if ByOperator(e) {
        OperatorsFramed(w, e);
      } else {
        OthersFramed(w, e);
      }
    }
  }

  lemma LogoutKeepsBack(h: Hub, ws: Socket)
    requires Back(h)
    ensures Back(h.Logout(ws))
  {
  }

  lemma LeavingLogsOut(w: World, e: Event) returns (ws: Socket)
    requires e.BeginDrop? || e.Disconnect?
    ensures SameLogins(w.hub, Step(w, e).hub) || SameLogins(w.hub.Logout(ws), Step(w, e).hub)
  {
    hide OnBeginDrop, OnDisconnect, SameLogins, Hub.Logout;
    match e
    case BeginDrop(s, choice) =>
      ws := s;
      BeginDropFramed(w, s, choice);
    case Disconnect(username, choice) => ws := DisconnectFramed(w, username, choice);
  }

  lemma LeavingKeepsBack(w: World, e: Event)
    requires Back(w.hub) && (e.BeginDrop? || e.Disconnect?)
    ensures Back(Step(w, e).hub)
  {
    hide Back, Hub.Logout, Step, SameLogins;
    var ws := LeavingLogsOut(w, e);
    LogoutKeepsBack(w.hub, ws);
    BackIsLogins(w.hub, Step(w, e).hub);
    BackIsLogins(w.hub.Logout(ws), Step(w, e).hub);
  }

  lemma BackIsLogins(h: Hub, t: Hub)
    ensures SameLogins(h, t) ==> (Back(h) <==> Back(t))
  {
  }

  lemma SignOutKeepsBack(w: World, ws: Socket)
    requires Inv(w.hub) && Back(w.hub)
    ensures Back(OnSignOutEnds(w, ws).hub)
  {
    if ws in w.hub.pcs {
      SideOf(w.hub, ws);
      UsersAgree(w.hub);
      hide Inv;
    }
  }

  lemma UsersAgree(h: Hub)
    requires Inv(h)
    ensures UsersOk(h)
  {
  }

  lemma BackIsUniq(h: Hub)
    requires Back(h)
    ensures Uniq(h)
  {
  }

  /** The guard of the login's first check, read again where the login is entered, is exactly what is missing. */
  lemma CommitKeepsUniq(w: World, ws: Socket, user: string)
    requires Inv(w.hub) && Back(w.hub) && w.hub.At(ws, LoginReply(user))
    ensures Uniq(Step(w, LoginCommit(ws)).hub) <==> user !in w.hub.operatorWs
    ensures user !in w.hub.operatorWs ==> Back(Step(w, LoginCommit(ws)).hub)
  {
    SideOf(w.hub, ws);
    UsersAgree(w.hub);
    hide Inv;
    var t := Step(w, LoginCommit(ws)).hub;
    if user in w.hub.operatorWs {
      var other := w.hub.operatorWs[user];
      assert other in t.wsUser && t.wsUser[other] == t.wsUser[ws] == user && other != ws;
    }
  }

  lemma StepKeepsUniq(w: World, e: Event)
    requires Inv(w.hub) && Back(w.hub)
    ensures Uniq(Step(w, e).hub) <==> FindsNameFree(w.hub, e)
    ensures FindsNameFree(w.hub, e) ==> Back(Step(w, e).hub)
  {
    hide Inv, Uniq, Back;
    if e.LoginCommit? {
      if e.ws in w.hub.pcs && w.hub.pcs[e.ws].LoginReply? {
        CommitKeepsUniq(w, e.ws, w.hub.pcs[e.ws].username);
      } else {
        BackIsUniq(w.hub);
      }
    } else {
      hide Step;
      if e.SignOutEnds? {
        SignOutKeepsBack(w, e.ws);
        assert Step(w, e) == OnSignOutEnds(w, e.ws) by { SignOutStep(w, e.ws); }
      } else if ChangesLogins(e) {
        LeavingKeepsBack(w, e);
      } else {
        OthersKeepLogins(w, e);
        BackIsLogins(w.hub, Step(w, e).hub);
      }
      BackIsUniq(Step(w, e).hub);
    }
  }

  lemma SignOutStep(w: World, ws: Socket)
    ensures Step(w, SignOutEnds(ws)) == OnSignOutEnds(w, ws)
  {
  }

  /** Up to n, every login entered found its name free. */
  ghost predicate AllFree(w: World, es: seq<Event>, n: nat)
    requires n <= |es|
  {
    forall k: nat :: k < n ==> FindsNameFree(Run(w, es[..k]).hub, es[k])
  }

  ghost predicate AllUniq(w: World, es: seq<Event>, n: nat)
    requires n <= |es|
  {
    forall k: nat :: k <= n ==> Uniq(Run(w, es[..k]).hub)
  }

  lemma {:induction false} FreeIsUniq(w: World, es: seq<Event>, n: nat)
    requires Initial(w) && n <= |es|
    ensures AllFree(w, es, n) <==> AllUniq(w, es, n)
    ensures AllFree(w, es, n) ==> Back(Run(w, es[..n]).hub)
  {
    if n == 0 {
      assert es[..0] == [];
    } else {
      hide Inv, Uniq, Back, Step, FindsNameFree, Run, AllFree, AllUniq, Initial;
      FreeIsUniq(w, es, n - 1);
      OneMore(w, es, n);
      if AllFree(w, es, n - 1) {
        RunTurn(w, es, n - 1);
        RunInv(w, es[..n - 1]);
        StepKeepsUniq(Run(w, es[..n - 1]), es[n - 1]);
      }
    }
  }

  lemma OneMore(w: World, es: seq<Event>, n: nat)
    requires 0 < n <= |es|
    ensures AllFree(w, es, n) <==> AllFree(w, es, n - 1) && FindsNameFree(Run(w, es[..n - 1]).hub, es[n - 1])
    ensures AllUniq(w, es, n) <==> AllUniq(w, es, n - 1) && Uniq(Run(w, es[..n]).hub)
  {
    hide Run, FindsNameFree, Uniq;
  }

  /**
    Over every run, each username is logged in on at most one socket throughout exactly when
    every login, at the moment it is entered, finds its username free.
   */
  lemma UsernamesStayUnique(w: World, es: seq<Event>)
    requires Initial(w)
    ensures (forall n: nat :: n <= |es| ==> Uniq(Run(w, es[..n]).hub))
       <==> (forall n: nat :: n < |es| ==> FindsNameFree(Run(w, es[..n]).hub, es[n]))
  {
    hide Run, Uniq, Back, FindsNameFree, Initial;
    FreeIsUniq(w, es, |es|);
  }

  /** A socket the dictionary gives for a username is logged in under it, in every interleaving. */
  lemma DictionaryAgrees(w: World, es: seq<Event>, user: string)
    requires Initial(w) && user in Run(w, es).hub.operatorWs
    ensures var h := Run(w, es).hub; h.operatorWs[user] in h.wsUser && h.wsUser[h.operatorWs[user]] == user
  {
    RunInv(w, es);
  }

  // ---------- A run in which it is not unique ----------

  /** Two operators' connections, each where its login stands. */
  predicate LoggingIn(w: World, first: Pc, second: Pc) {
    w.hub.At(1, first) && w.hub.At(2, second) && w.hub.wsUser == map[] && w.hub.operatorWs == map[]
  }

  lemma BothConnected() returns (es: seq<Event>)
    ensures LoggingIn(Run(EmptyWorld(), es), OperatorIdle, OperatorIdle) && Initial(EmptyWorld())
  {
    es := Then(EmptyWorld(), [], Connect(1, OperatorSide));
    es := Then(EmptyWorld(), es, Connect(2, OperatorSide));
  }

  lemma BothAsked(w: World, user: string)
    requires LoggingIn(w, OperatorIdle, OperatorIdle)
    ensures LoggingIn(Step(Step(w, LoginFrame(1, user)), LoginFrame(2, user)), LoginWait(user), LoginWait(user))
  {
  }

  lemma BothMatched(w: World, user: string)
    requires LoggingIn(w, LoginWait(user), LoginWait(user))
    ensures LoggingIn(Step(Step(w, LoginMatched(1, true)), LoginMatched(2, true)), LoginReply(user), LoginReply(user))
  {
  }

  lemma BothCommitted(w: World, user: string)
    requires LoggingIn(w, LoginReply(user), LoginReply(user))
    ensures Step(Step(w, LoginCommit(1)), LoginCommit(2)).hub.wsUser == map[1 := user, 2 := user]
  {
  }

  /**
    The check that a username is free is made before its password is hashed and not after: two
    connections that log in together are both logged in under it.
   */
  lemma TwoSocketsOneUsername(user: string) returns (es: seq<Event>)
    ensures Initial(EmptyWorld()) && Run(EmptyWorld(), es).hub.wsUser == map[1 := user, 2 := user]
  {
    var w := EmptyWorld();
    es := BothConnected();
    hide Step, Run, Initial, LoggingIn, EmptyWorld;
    BothAsked(Run(w, es), user);
    es := Then(w, es, LoginFrame(1, user));
    es := Then(w, es, LoginFrame(2, user));
    BothMatched(Run(w, es), user);
    es := Then(w, es, LoginMatched(1, true));
    es := Then(w, es, LoginMatched(2, true));
    BothCommitted(Run(w, es), user);
    es := Then(w, es, LoginCommit(1));
    es := Then(w, es, LoginCommit(2));
  }

  // ---------- Ways out ----------

  /** From the moment a handler drops its connection, nobody is logged in on its socket. */
  lemma LoggedOutAtReturn(w: World, es: seq<Event>, ws: Socket)
    requires Initial(w) && ws in Run(w, es).hub.pcs
    requires Run(w, es).hub.pcs[ws].Done? || Run(w, es).hub.pcs[ws].DropWait?
    ensures ws !in Run(w, es).hub.wsUser && forall user :: user in Run(w, es).hub.operatorWs ==> Run(w, es).hub.operatorWs[user] != ws
  {
    hide Run;
    RunInv(w, es);
    SideOf(Run(w, es).hub, ws);
    UsersAgree(Run(w, es).hub);
  }

  /** Signing out ends the socket's login, and no username leads to it any more. */
  lemma SigningOutLogsOut(w: World, ws: Socket)
    requires Inv(w.hub) && ws in w.hub.pcs && w.hub.pcs[ws].SignOutReply?
    ensures var h := Step(w, SignOutEnds(ws)).hub;
            && ws !in h.wsUser && h.At(ws, OperatorIdle) && forall user :: user in h.operatorWs ==> h.operatorWs[user] != ws
  {
    SideOf(w.hub, ws);
    UsersAgree(w.hub);
    hide Inv;
  }

  /** Disabling an account ends the login its username leads to, whether or not the socket holds a robot. */
  lemma DisablingLogsOut(w: World, username: string, choice: Option<string>)
    requires Inv(w.hub) && w.hub.maintain == Asleep && username in w.hub.operatorWs
    requires w.hub.Logout(w.hub.operatorWs[username]).HeldChoice(w.hub.operatorWs[username], choice)
    ensures var h := Step(w, Disconnect(username, choice)).hub;
            && username !in h.operatorWs && w.hub.operatorWs[username] !in h.wsUser
            && (choice.Some? ==> choice.value in h.robots && h.maintain == ReleaseFor(w.hub.operatorWs[username], h.robots[choice.value]))
  {
    UsersAgree(w.hub);
    hide Inv;
  }

  // ---------- Robots whose place was taken ----------

  /** A robot's connection with a session whose record is gone, or has another socket by now. */
  predicate Superseded(h: Hub, ws: Socket) {
    && ws in h.pcs && h.pcs[ws].RobotIdle? && h.pcs[ws].session.Some?
    && var rec := h.pcs[ws].session.value;
       !(rec < |h.records| && h.records[rec].id in h.robots && h.robots[h.records[rec].id] == rec && h.records[rec].robot == Some(ws))
  }

  /** Its next frame, whatever it says, only closes the connection. */
  lemma SupersededOnlyCloses(w: World, ws: Socket, id: string, phase: Phase, kind: Kind, choice: Option<string>)
    requires Superseded(w.hub, ws)
    ensures var closed := w.To(w.hub.(pcs := w.hub.pcs[ws := Closing]));
            && Step(w, RegisterFrame(ws, id)) == closed && Step(w, PresenceFrame(ws, phase)) == closed
            && Step(w, RelayFrame(ws, kind, choice)) == closed
  {
    hide Hub.PendingCount, Hub.HeldChoice, Kind.AllowedFrom, Record.Presence;
  }

  /** A matched token counts only for the secret it was checked against: the record under the ID must still have it. */
  lemma MatchCountsForItsSecret(w: World, ws: Socket, id: string, stored: int, session: Option<RecId>, ok: bool)
    requires Inv(w.hub) && w.hub.At(ws, Matching(id, stored, session))
    ensures var t := Step(w, Matched(ws, ok)).hub;
            && ws in t.pcs
            && (t.pcs[ws].TakeWait? <==> ok && id in w.hub.robots && w.hub.records[w.hub.robots[id]].secret == stored)
            && (t.pcs[ws].TakeWait? ==> t.pcs[ws].rec == w.hub.robots[id])
            && (!t.pcs[ws].TakeWait? ==> t.pcs[ws] == RobotIdle(session))
  {
    if id in w.hub.robots {
      GetRobot(w.hub, id);
    }
    hide Inv;
  }

  /** A socket becomes its record's session only if it is still the record's once the lock is taken again. */
  lemma SessionIsOwn(w: World, ws: Socket, rec: RecId, session: Option<RecId>)
    requires w.hub.At(ws, TakeCheck(rec, session)) && w.hub.Lockable(rec)
    ensures Step(w, TakeAgain(ws)).hub.At(ws, RobotIdle(if w.hub.records[rec].robot == Some(ws) then Some(rec) else session))
  {
  }
}
