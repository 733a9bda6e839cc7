/**
 * `getOnlineContacts`: the signed-in user's accepted contacts, each seen from
 * the user's side (the other party of the relationship), kept only when
 * online. The session lookup, the contact query and `isUserOnline` are
 * collaborators this model receives as inputs.
 */
module OnlineContacts {
  import opened Wrappers

  datatype ContactStatus = Pending | Accepted | Rejected

  /** The user fields the query selects for each party. */
  datatype UserSummary = UserSummary(
    id: string,
    name: string,
    hashtag: Option<string>,
    avatarPhoto: Option<string>,
    lastSeenAt: Option<int>)

  /** One contact row with both parties included. */
  datatype ContactRow = ContactRow(
    senderId: string,
    receiverId: string,
    status: ContactStatus,
    sender: UserSummary,
    receiver: UserSummary)

  datatype SessionUser = SessionUser(id: Option<string>)
  datatype Session = Session(user: Option<SessionUser>)

  /**
   * `session?.user?.id` when it is truthy; an absent session, user or id and
   * the empty id all count as signed out.
   */
  function SignedInUserId(session: Option<Session>): (r: Option<string>)
    ensures r.Some? ==> r.value != []
    ensures r.None? <==> (session.None? || session.value.user.None? || session.value.user.value.id.None?
                          || session.value.user.value.id.value == [])
    ensures r.Some? ==> r == session.value.user.value.id
  {
    match session
    case None => None
    case Some(s) =>
      match s.user
      case None => None
      case Some(u) => if u.id == Some([]) then None else u.id
  }

  /** The filter of the contact query: accepted, with the user on either side. */
  predicate MatchesQuery(userId: string, c: ContactRow) {
    c.status == Accepted && (c.senderId == userId || c.receiverId == userId)
  }

  /** The receiver of `c` when the user sent the contact, otherwise the sender. */
  function Counterpart(userId: string, c: ContactRow): (u: UserSummary)
    ensures u == c.receiver || u == c.sender
    ensures c.senderId == userId ==> u == c.receiver
    ensures c.senderId != userId ==> u == c.sender
  {
    if c.senderId == userId then c.receiver else c.sender
  }

  /** `contacts.map(c => Counterpart(c))`. */
  function Counterparts(userId: string, contacts: seq<ContactRow>): (r: seq<UserSummary>)
    ensures |r| == |contacts|
    ensures forall i | 0 <= i < |r| :: r[i] == Counterpart(userId, contacts[i])
  {
    if contacts == [] then []
    else [Counterpart(userId, contacts[0])] + Counterparts(userId, contacts[1..])
  }

  /** `r` is `s` with some elements left out and the rest in their order. */
  predicate IsSubsequence<T(==)>(r: seq<T>, s: seq<T>) {
    if r == [] then true
    else if s == [] then false
    else if r[0] == s[0] then IsSubsequence(r[1..], s[1..])
    else IsSubsequence(r, s[1..])
  }

  /** `users.filter(user => isUserOnline(user.lastSeenAt))`. */
  function OnlineOnly(isOnline: Option<int> -> bool, users: seq<UserSummary>): (r: seq<UserSummary>)
    ensures |r| <= |users|
    ensures forall i | 0 <= i < |r| :: isOnline(r[i].lastSeenAt)
    ensures IsSubsequence(r, users)
  {
    if users == [] then []
    else if isOnline(users[0].lastSeenAt) then
      var rest := OnlineOnly(isOnline, users[1..]);
      assert ([users[0]] + rest)[1..] == rest;
      [users[0]] + rest
    else
      var rest := OnlineOnly(isOnline, users[1..]);
      SubsequenceOfTail(rest, users);
      rest
  }

  lemma {:induction false} SubsequenceOfTail<T>(r: seq<T>, s: seq<T>)
    requires s != [] && IsSubsequence(r, s[1..])
    ensures IsSubsequence(r, s)
    decreases |s|, 0
  {
    if r != [] && r[0] == s[0] {
      SubsequenceDropHead(r, s[1..]);
    }
  }

  lemma {:induction false} SubsequenceDropHead<T>(r: seq<T>, t: seq<T>)
    requires r != [] && IsSubsequence(r, t)
    ensures IsSubsequence(r[1..], t)
    decreases |t|, 1
  {
    if r[0] == t[0] {
      SubsequenceOfTail(r[1..], t);
    } else {
      SubsequenceDropHead(r, t[1..]);
      SubsequenceOfTail(r[1..], t);
    }
  }

  /**
   * The filter neither duplicates nor drops online users: each user occurs in
   * the result as often as in the input when online, and never otherwise.
   */
  lemma {:induction false} OnlineOnlyCounts(isOnline: Option<int> -> bool, users: seq<UserSummary>, u: UserSummary)
    ensures multiset(OnlineOnly(isOnline, users))[u] == if isOnline(u.lastSeenAt) then multiset(users)[u] else 0
  {
    if users != [] {
      OnlineOnlyCounts(isOnline, users[1..], u);
      assert users == [users[0]] + users[1..];
    }
  }

  /**
   * `getOnlineContacts()`. `findAccepted(userId)` stands for the contact
   * query issued for the signed-in user.
   */
  function GetOnlineContacts(session: Option<Session>, findAccepted: string -> seq<ContactRow>,
                             isOnline: Option<int> -> bool): (r: seq<UserSummary>)
    ensures SignedInUserId(session).None? ==> r == []
    ensures SignedInUserId(session).Some? ==> |r| <= |findAccepted(SignedInUserId(session).value)|
    ensures forall i | 0 <= i < |r| :: isOnline(r[i].lastSeenAt)
  {
    match SignedInUserId(session)
    case None => []
    case Some(userId) => OnlineOnly(isOnline, Counterparts(userId, findAccepted(userId)))
  }

  /**
   * For a row the query returns, whose included parties match its ids, the
   * counterpart is the other party of the relationship; it is the user only
   * for a contact the user made with themself.
   */
  lemma CounterpartIsOtherParty(userId: string, c: ContactRow)
    requires MatchesQuery(userId, c)
    requires c.sender.id == c.senderId && c.receiver.id == c.receiverId
    ensures Counterpart(userId, c).id == if c.senderId == userId then c.receiverId else c.senderId
    ensures Counterpart(userId, c).id == userId <==> c.senderId == c.receiverId
  {
  }

  /**
   * The result is, in order, exactly the counterparts that are online: an
   * in-order selection of them, with every online counterpart kept as often
   * as it occurs.
   */
  lemma {:induction false} OnlineContactsAreOnlineCounterparts(session: Option<Session>,
      findAccepted: string -> seq<ContactRow>, isOnline: Option<int> -> bool, u: UserSummary)
    requires SignedInUserId(session).Some?
    ensures var userId := SignedInUserId(session).value;
            var all := Counterparts(userId, findAccepted(userId));
            var r := GetOnlineContacts(session, findAccepted, isOnline);
            && IsSubsequence(r, all)
            && multiset(r)[u] == if isOnline(u.lastSeenAt) then multiset(all)[u] else 0
  {
    var userId := SignedInUserId(session).value;
    OnlineOnlyCounts(isOnline, Counterparts(userId, findAccepted(userId)), u);
  }

  /** When every counterpart is online, one user is returned per contact row. */
  lemma {:induction false} AllOnlineKeepsEveryRow(session: Option<Session>,
      findAccepted: string -> seq<ContactRow>, isOnline: Option<int> -> bool)
    requires SignedInUserId(session).Some?
    requires var userId := SignedInUserId(session).value;
             forall c | c in findAccepted(userId) :: isOnline(Counterpart(userId, c).lastSeenAt)
    ensures var userId := SignedInUserId(session).value;
            GetOnlineContacts(session, findAccepted, isOnline) == Counterparts(userId, findAccepted(userId))
            && |GetOnlineContacts(session, findAccepted, isOnline)| == |findAccepted(userId)|
  {
    var userId := SignedInUserId(session).value;
    var all := Counterparts(userId, findAccepted(userId));
    forall i | 0 <= i < |all| ensures isOnline(all[i].lastSeenAt) {
      assert findAccepted(userId)[i] in findAccepted(userId);
    }
    AllOnlineIsIdentity(isOnline, all);
  }

  lemma {:induction false} AllOnlineIsIdentity(isOnline: Option<int> -> bool, users: seq<UserSummary>)
    requires forall i | 0 <= i < |users| :: isOnline(users[i].lastSeenAt)
    ensures OnlineOnly(isOnline, users) == users
  {
    if users != [] {
      AllOnlineIsIdentity(isOnline, users[1..]);
    }
  }
}
