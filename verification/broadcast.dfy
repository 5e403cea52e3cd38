/**
 * Admin broadcast (plugins/broadcast.py): the `sessions` collection as a set
 * of logged-in user ids, the `/login` and `/logout` commands that upsert and
 * delete in it, and `/broadcast`, which copies the replied-to message to
 * every stored user and counts the copies that succeed.
 */
module Broadcast {
  import opened Common
  import opened Strings

  const LoginText := "✅ Login successful."
  const LogoutText := "🔒 Logged out."
  const NotLoggedInText := "❌ You are not logged in."
  const NoReplyText := "Reply to a message to broadcast."

  /** The reply once the loop is over. */
  function SentText(sent: nat): string
  {
    "✅ Broadcast sent to " + NatToString(sent) + " users."
  }

  /** `/login` compares the decimal text of the sender's id with the entries of `ADMINS`. */
  predicate IsAdmin(sender: int, admins: seq<string>)
  {
    IntToString(sender) in admins
  }

  /** The session set after `/login`: an upsert for an admin, no change for anyone else. */
  function AfterLogin(sessions: set<int>, sender: int, admins: seq<string>): set<int>
  {
    if IsAdmin(sender, admins) then sessions + {sender} else sessions
  }

  /** The session set after `/logout`: the sender's record is deleted, whether or not there was one. */
  function AfterLogout(sessions: set<int>, sender: int): set<int>
  {
    sessions - {sender}
  }

  /** Logging in twice is the same as logging in once, and logs in exactly the admins. */
  lemma LoginIdempotent(sessions: set<int>, sender: int, admins: seq<string>)
    ensures AfterLogin(AfterLogin(sessions, sender, admins), sender, admins) == AfterLogin(sessions, sender, admins)
    ensures sender in AfterLogin(sessions, sender, admins) <==> sender in sessions || IsAdmin(sender, admins)
    ensures forall u :: u != sender ==> (u in AfterLogin(sessions, sender, admins) <==> u in sessions)
  {
  }

  /** Logging out undoes a login, and touches no other user's session. */
  lemma LogoutAfterLogin(sessions: set<int>, sender: int, admins: seq<string>)
    ensures AfterLogout(AfterLogin(sessions, sender, admins), sender) == AfterLogout(sessions, sender)
    ensures sender !in AfterLogout(sessions, sender)
    ensures forall u :: u != sender ==> (u in AfterLogout(sessions, sender) <==> u in sessions)
  {
  }

  /** A document of the `users` collection; a document without `user_id` makes `user['user_id']` raise. */
  datatype UserDoc = UserDoc(userId: Option<int>)

  /**
   * The users a copy reaches, in iteration order: `ok[i]` is whether
   * `copy_message` to the i-th user would succeed. A user whose document
   * has no id, or whose copy fails, is skipped.
   */
  function Deliveries(users: seq<UserDoc>, ok: seq<bool>): seq<int>
    requires |ok| == |users|
  {
    if users == [] then []
    else
      var n := |users| - 1;
      Deliveries(users[..n], ok[..n]) + (if users[n].userId.Some? && ok[n] then [users[n].userId.value] else [])
  }

  /** Each successful copy counts once, so `sent` never exceeds the number of users. */
  lemma {:induction false} DeliveriesBound(users: seq<UserDoc>, ok: seq<bool>)
    requires |ok| == |users|
    ensures |Deliveries(users, ok)| <= |users|
  {
    if users != [] {
      var n := |users| - 1;
      DeliveriesBound(users[..n], ok[..n]);
    }
  }

  /** An id is delivered exactly when some user with that id is copied to successfully. */
  lemma {:induction false} DeliveriesMembers(users: seq<UserDoc>, ok: seq<bool>, id: int)
    requires |ok| == |users|
    ensures id in Deliveries(users, ok) <==> exists i :: 0 <= i < |users| && users[i].userId == Some(id) && ok[i]
  {
    if users != [] {
      var n := |users| - 1;
      DeliveriesMembers(users[..n], ok[..n], id);
      if exists i :: 0 <= i < |users| && users[i].userId == Some(id) && ok[i] {
        var i :| 0 <= i < |users| && users[i].userId == Some(id) && ok[i];
        if i < n {
          assert users[..n][i] == users[i] && ok[..n][i] == ok[i];
        }
      }
      if exists i :: 0 <= i < n && users[..n][i].userId == Some(id) && ok[..n][i] {
        var i :| 0 <= i < n && users[..n][i].userId == Some(id) && ok[..n][i];
        assert users[i].userId == Some(id) && ok[i];
      }
    }
  }

  /** A failed copy does not stop the loop: the users after it are processed as if it had not happened. */
  lemma {:induction false} DeliveriesAppend(u1: seq<UserDoc>, ok1: seq<bool>, u2: seq<UserDoc>, ok2: seq<bool>)
    requires |ok1| == |u1| && |ok2| == |u2|
    ensures Deliveries(u1 + u2, ok1 + ok2) == Deliveries(u1, ok1) + Deliveries(u2, ok2)
    decreases |u2|
  {
    if u2 == [] {
      assert u1 + u2 == u1 && ok1 + ok2 == ok1;
    } else {
      var n := |u2| - 1;
      var u, ok := u1 + u2, ok1 + ok2;
      assert u[..|u| - 1] == u1 + u2[..n];
      assert ok[..|ok| - 1] == ok1 + ok2[..n];
      assert u[|u| - 1] == u2[n] && ok[|ok| - 1] == ok2[n];
      DeliveriesAppend(u1, ok1, u2[..n], ok2[..n]);
      AppendAssoc(Deliveries(u1, ok1), Deliveries(u2[..n], ok2[..n]),
                  if u2[n].userId.Some? && ok2[n] then [u2[n].userId.value] else []);
    }
  }

  /** When every copy fails nothing is sent; when every copy succeeds every stored id is sent to, in order. */
  lemma {:induction false} DeliveriesExtremes(users: seq<UserDoc>, ok: seq<bool>)
    requires |ok| == |users|
    ensures (forall i :: 0 <= i < |ok| ==> !ok[i]) ==> Deliveries(users, ok) == []
    ensures (forall i :: 0 <= i < |ok| ==> ok[i]) && (forall i :: 0 <= i < |users| ==> users[i].userId.Some?) ==>
              Deliveries(users, ok) == seq(|users|, i requires 0 <= i < |users| => users[i].userId.value)
  {
    if users != [] {
      var n := |users| - 1;
      DeliveriesExtremes(users[..n], ok[..n]);
      if (forall i :: 0 <= i < |ok| ==> ok[i]) && (forall i :: 0 <= i < |users| ==> users[i].userId.Some?) {
        assert forall i :: 0 <= i < n ==> ok[..n][i] && users[..n][i].userId.Some?;
        var ids := seq(|users|, i requires 0 <= i < |users| => users[i].userId.value);
        assert ids == seq(n, i requires 0 <= i < n => users[..n][i].userId.value) + [users[n].userId.value];
      }
      if forall i :: 0 <= i < |ok| ==> !ok[i] {
        assert forall i :: 0 <= i < n ==> !ok[..n][i];
      }
    }
  }

  /** The `sessions` collection, reduced to the ids that have a session record. */
  class AdminSessions {
    var sessions: set<int>

    /** The collection as the database holds it when the bot starts: `stored` are the ids with a session record. */
    constructor(stored: set<int>)
      ensures sessions == stored
    {
      sessions := stored;
    }

    /** `/login`: an admin gets a session and a confirmation; anyone else gets no answer and no session. */
    method Login(sender: int, admins: seq<string>) returns (reply: Option<string>)
      modifies this
      ensures sessions == AfterLogin(old(sessions), sender, admins)
      ensures reply == if IsAdmin(sender, admins) then Some(LoginText) else None
    {
      if IntToString(sender) in admins {
        sessions := sessions + {sender};
        reply := Some(LoginText);
      } else {
        reply := None;
      }
    }

    /** `/logout`: always answers, whether or not the sender had a session. */
    method Logout(sender: int) returns (reply: string)
      modifies this
      ensures sessions == AfterLogout(old(sessions), sender)
      ensures reply == LogoutText
    {
      sessions := sessions - {sender};
      reply := LogoutText;
    }

    /**
     * `/broadcast`: the session check comes first, then the replied-to
     * message; only then are the users visited once each, in order.
     * `copies` lists the users the message reached, `sent` counts them.
     */
    method Broadcast(sender: int, hasReply: bool, users: seq<UserDoc>, ok: seq<bool>)
      returns (reply: string, copies: seq<int>, sent: nat)
      requires |ok| == |users|
      ensures sender !in sessions ==> reply == NotLoggedInText && copies == []
      ensures sender in sessions && !hasReply ==> reply == NoReplyText && copies == []
      ensures sender in sessions && hasReply ==> copies == Deliveries(users, ok) && reply == SentText(sent)
      ensures sent == |copies| <= |users|
    {
      if sender !in sessions {
        return NotLoggedInText, [], 0;
      }
      if !hasReply {
        return NoReplyText, [], 0;
      }
      copies, sent := [], 0;
      for i := 0 to |users|
        invariant copies == Deliveries(users[..i], ok[..i])
        invariant sent == |copies|
      {
        assert users[..i + 1][..i] == users[..i] && ok[..i + 1][..i] == ok[..i];
        if users[i].userId.Some? && ok[i] {
          copies := copies + [users[i].userId.value];
          sent := sent + 1;
        }
      }
      assert users[..|users|] == users && ok[..|ok|] == ok;
      DeliveriesBound(users, ok);
      reply := SentText(sent);
    }
  }
}
