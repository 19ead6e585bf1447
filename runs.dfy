/**
 * What the brokerage guarantees across calls: single-call properties of the
 * registry and the session set, and properties of any sequence of calls a
 * client may make, proved by induction over that sequence.
 */
module BrokerageRuns {
  import opened SafeTrade

  /** One call a client makes on the brokerage. A registration carries the
      Trader object its `new Trader(this, name, password)` would create. */
  datatype Request =
    | AddUser(name: string, password: string, user: Trader)
    | Login(name: string, password: string)
    | Logout(trader: Trader)
    | GetQuote(symbol: string, trader: Trader)
    | PlaceOrder(order: TradeOrder?)

  /** A registration request's trader is the one the constructor builds. */
  predicate Constructed(q: Request)
  {
    q.AddUser? ==> q.user.name == q.name && q.user.password == q.password
  }

  /** The state after one request (the result code is dropped). */
  function Apply(s: State, exchange: StockExchange, q: Request): (r: State)
  {
    match q
    case AddUser(name, password, user) =>
      if AddUserCode(s, name, password) == 0 then Register(s, name, user) else s
    case Login(name, password) =>
      if LoginCode(s, name, password) == 0 then OpenSession(s, s.traders[name]) else s
    case Logout(trader) => CloseSession(s, trader)
    case GetQuote(symbol, trader) => RelayQuote(s, exchange, symbol, trader)
    case PlaceOrder(order) => ForwardOrder(s, order)
  }

  /** The state after a sequence of requests, first to last. */
  function Run(s: State, exchange: StockExchange, qs: seq<Request>): (r: State)
    decreases |qs|
  {
    if qs == [] then s else Run(Apply(s, exchange, qs[0]), exchange, qs[1..])
  }

  // ---- Single calls ----

  /** A name of bad length is refused with -1 whatever the password, and the
      state is left as it was. */
  lemma BadNameRefused(s: State, exchange: StockExchange, name: string, password: string, user: Trader)
    requires Utf16Length(name) < 4 || Utf16Length(name) > 10
    ensures AddUserCode(s, name, password) == -1
    ensures Apply(s, exchange, AddUser(name, password, user)) == s
  {
  }

  /** With a name of valid length, a password of bad length is refused with -2,
      and the state is left as it was. */
  lemma BadPasswordRefused(s: State, exchange: StockExchange, name: string, password: string, user: Trader)
    requires 4 <= Utf16Length(name) <= 10
    requires Utf16Length(password) < 2 || Utf16Length(password) > 10
    ensures AddUserCode(s, name, password) == -2
    ensures Apply(s, exchange, AddUser(name, password, user)) == s
  {
  }

  /** Registering a taken name never replaces its account: the second attempt
      is refused (with -3 when the password has a valid length) and the first
      account, password included, stays. */
  lemma SecondRegistrationRefused(s: State, exchange: StockExchange, name: string, first: string, second: string,
                                   user: Trader, other: Trader)
    requires AddUserCode(s, name, first) == 0
    ensures var s1 := Register(s, name, user);
      && AddUserCode(s1, name, second) != 0
      && (ValidPassword(second) ==> AddUserCode(s1, name, second) == -3)
      && Apply(s1, exchange, AddUser(name, second, other)) == s1
      && s1.traders[name] == user
  {
  }

  /** Lengths are counted as Java counts them, in UTF-16 code units: a name of
      three characters, one of them outside the Basic Multilingual Plane, has
      length 4 and is accepted. */
  lemma NonBmpShortNameAccepted()
    ensures Utf16Length("ab\U{1F600}") == 4
    ensures AddUserCode(INITIAL, "ab\U{1F600}", "pw") == 0
  {
    var x, y := "ab", ['\U{1F600}'];
    assert x + y == "ab\U{1F600}";
    PlainLength(x);
    PlainLength("pw");
    CharLength('\U{1F600}');
    Utf16LengthAppend(x, y);
  }

  /** A name of ten characters, one of them outside the Basic Multilingual
      Plane, has length 11 and is refused with -1. */
  lemma NonBmpLongNameRefused()
    ensures Utf16Length("abcdefghi\U{1F600}") == 11
    ensures AddUserCode(INITIAL, "abcdefghi\U{1F600}", "pw") == -1
  {
    var x, y := "abcdefghi", ['\U{1F600}'];
    assert x + y == "abcdefghi\U{1F600}";
    PlainLength(x);
    CharLength('\U{1F600}');
    Utf16LengthAppend(x, y);
  }

  /** A single character is two code units when it lies outside the Basic
      Multilingual Plane and one otherwise. */
  lemma CharLength(c: char)
    ensures Utf16Length([c]) == if c as int > 0xFFFF then 2 else 1
  {
    assert [c][1..] == [];
  }

  /** A string of characters of the Basic Multilingual Plane is one code unit
      per character. */
  lemma {:induction false} PlainLength(s: string)
    requires forall i :: 0 <= i < |s| ==> s[i] as int <= 0xFFFF
    ensures Utf16Length(s) == |s|
    decreases |s|
  {
    if s != [] {
      assert forall i :: 0 <= i < |s[1..]| ==> s[1..][i] == s[i + 1];
      PlainLength(s[1..]);
    }
  }

  /** The UTF-16 length of a concatenation is the sum of the lengths. */
  lemma {:induction false} Utf16LengthAppend(a: string, b: string)
    ensures Utf16Length(a + b) == Utf16Length(a) + Utf16Length(b)
    decreases |a|
  {
    if a == [] {
      assert a + b == b;
    } else {
      assert (a + b)[1..] == a[1..] + b;
      assert (a + b)[0] == a[0];
      Utf16LengthAppend(a[1..], b);
    }
  }

  /** As written, logging in again with the right password succeeds again
      (code 0, not the documented -3): the trader is welcomed and its window
      opened a second time, while the session set still holds it once. */
  lemma RepeatLoginSucceeds(s: State, name: string, password: string)
    requires LoginCode(s, name, password) == 0
    ensures var u := s.traders[name];
      var s1 := OpenSession(s, u);
      && LoginCode(s1, name, password) == 0
      && OpenSession(s1, u).loggedTraders == s1.loggedTraders
      && OpenSession(s1, u).calls == s1.calls + [ReceiveMessage(u, WELCOME), OpenWindow(u)]
  {
  }

  /** A login refused for an unknown name (-1) or a wrong password (-2)
      sends no message, opens no window and leaves the session set alone. */
  lemma RefusedLoginChangesNothing(s: State, exchange: StockExchange, name: string, password: string)
    requires name !in s.traders || s.traders[name].password != password
    ensures LoginCode(s, name, password) == (if name !in s.traders then -1 else -2)
    ensures Apply(s, exchange, Login(name, password)) == s
  {
  }

  /** Logging out twice is the same as logging out once, and logging out a
      trader who is not logged in changes nothing. */
  lemma LogoutIdempotent(s: State, trader: Trader)
    ensures CloseSession(CloseSession(s, trader), trader) == CloseSession(s, trader)
    ensures trader !in s.loggedTraders ==> CloseSession(s, trader) == s
  {
  }

  // ---- Sequences of calls ----

  lemma ApplyPreservesInv(s: State, exchange: StockExchange, q: Request)
    requires Inv(s) && Constructed(q)
    ensures Inv(Apply(s, exchange, q))
  {
    match q
    case AddUser(name, password, user) =>
      if AddUserCode(s, name, password) == 0 {
        RegisterPreservesInv(s, name, user);
      }
    case Login(name, password) =>
      if LoginCode(s, name, password) == 0 {
        OpenSessionPreservesInv(s, name);
      }
    case Logout(trader) => CloseSessionPreservesInv(s, trader);
    case GetQuote(symbol, trader) => RelayQuotePreservesInv(s, exchange, symbol, trader);
    case PlaceOrder(order) => ForwardOrderPreservesInv(s, order);
  }

  /** Whatever a client does, each account stays filed under its own name,
      only registered traders are logged in, each of them had its window
      opened, and every window was opened right after a welcome. */
  lemma {:induction false} RunPreservesInv(s: State, exchange: StockExchange, qs: seq<Request>)
    requires Inv(s)
    requires forall i :: 0 <= i < |qs| ==> Constructed(qs[i])
    ensures Inv(Run(s, exchange, qs))
    decreases |qs|
  {
    if qs != [] {
      ApplyPreservesInv(s, exchange, qs[0]);
      assert forall i :: 0 <= i < |qs[1..]| ==> qs[1..][i] == qs[i + 1];
      RunPreservesInv(Apply(s, exchange, qs[0]), exchange, qs[1..]);
    }
  }

  /** Accounts are never removed or replaced: every name registered before a
      sequence of calls maps to the same trader after it. */
  lemma {:induction false} RunKeepsAccounts(s: State, exchange: StockExchange, qs: seq<Request>, name: string)
    requires name in s.traders
    ensures name in Run(s, exchange, qs).traders
    ensures Run(s, exchange, qs).traders[name] == s.traders[name]
    decreases |qs|
  {
    if qs != [] {
      RunKeepsAccounts(Apply(s, exchange, qs[0]), exchange, qs[1..], name);
    }
  }

  /** The record of collaborator calls only grows: a sequence of calls appends
      to it and never rewrites what is there. */
  lemma {:induction false} RunExtendsCalls(s: State, exchange: StockExchange, qs: seq<Request>)
    ensures s.calls <= Run(s, exchange, qs).calls
    decreases |qs|
  {
    if qs != [] {
      var s1 := Apply(s, exchange, qs[0]);
      assert s.calls <= s1.calls;
      RunExtendsCalls(s1, exchange, qs[1..]);
    }
  }

  /** A sequence of calls without a login adds no trader to the session set:
      a login is the only way in. */
  lemma {:induction false} RunWithoutLoginOpensNothing(s: State, exchange: StockExchange, qs: seq<Request>)
    requires forall i :: 0 <= i < |qs| ==> !qs[i].Login?
    ensures Run(s, exchange, qs).loggedTraders <= s.loggedTraders
    decreases |qs|
  {
    if qs != [] {
      assert forall i :: 0 <= i < |qs[1..]| ==> qs[1..][i] == qs[i + 1];
      RunWithoutLoginOpensNothing(Apply(s, exchange, qs[0]), exchange, qs[1..]);
    }
  }

  /** Register "alice"/"pw1", log in, log in again, log out, log in: as
      written every call returns 0 (the second login is not refused) and the
      trader is welcomed before each of its three windows opens. */
  lemma AliceSession(exchange: StockExchange, alice: Trader)
    requires alice.name == "alice" && alice.password == "pw1"
    ensures AddUserCode(INITIAL, "alice", "pw1") == 0
    ensures var s1 := Register(INITIAL, "alice", alice);
      && LoginCode(s1, "alice", "pw1") == 0
      && var s2 := OpenSession(s1, alice);
      && LoginCode(s2, "alice", "pw1") == 0
      && var s3 := OpenSession(s2, alice);
      && var s4 := CloseSession(s3, alice);
      && alice !in s4.loggedTraders
      && LoginCode(s4, "alice", "pw1") == 0
      && var s5 := OpenSession(s4, alice);
      && s5.loggedTraders == {alice}
      && s5.calls == [ReceiveMessage(alice, WELCOME), OpenWindow(alice),
                      ReceiveMessage(alice, WELCOME), OpenWindow(alice),
                      ReceiveMessage(alice, WELCOME), OpenWindow(alice)]
      && Run(INITIAL, exchange, [AddUser("alice", "pw1", alice), Login("alice", "pw1"),
                                 Login("alice", "pw1"), Logout(alice), Login("alice", "pw1")]) == s5
  {
    var qs := [AddUser("alice", "pw1", alice), Login("alice", "pw1"),
               Login("alice", "pw1"), Logout(alice), Login("alice", "pw1")];
    var s1 := Register(INITIAL, "alice", alice);
    var s2 := OpenSession(s1, alice);
    var s3 := OpenSession(s2, alice);
    var s4 := CloseSession(s3, alice);
    var s5 := OpenSession(s4, alice);
    assert Apply(INITIAL, exchange, qs[0]) == s1;
    assert Apply(s1, exchange, qs[1]) == s2;
    assert Apply(s2, exchange, qs[2]) == s3;
    assert Apply(s3, exchange, qs[3]) == s4;
    assert Apply(s4, exchange, qs[4]) == s5;
    assert Run(s5, exchange, qs[5..]) == s5;
    assert Run(s4, exchange, qs[4..]) == s5;
    assert Run(s3, exchange, qs[3..]) == s5;
    assert Run(s2, exchange, qs[2..]) == s5;
    assert Run(s1, exchange, qs[1..]) == s5;
  }
}
