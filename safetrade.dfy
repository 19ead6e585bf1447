/**
 * The brokerage of the SafeTrade trading simulation: a registry of trader
 * accounts keyed by screen name, the set of traders currently logged in, and
 * forwarding of quote and order requests to the stock exchange.
 *
 * The collaborators (Trader, StockExchange, TradeOrder) are only as detailed as
 * the brokerage needs: every call the brokerage makes on one of them is
 * recorded, in order, in a trace of `Call`s.
 */
module SafeTrade {

  /** The message every trader receives on a successful login. */
  const WELCOME: string := "Welcome to SafeTrade!"

  /** An order placed by a trader; the brokerage forwards it without looking inside. */
  class TradeOrder { }

  /** The trading venue. How it prices a symbol is not modelled: a quote is an
      uninterpreted function of the symbol. */
  class StockExchange {
    const quoteFor: string -> string

    constructor (quoteFor: string -> string)
      ensures this.quoteFor == quoteFor
    {
      this.quoteFor := quoteFor;
    }
  }

  /** A trader account: its brokerage, screen name and password. */
  class Trader {
    const brokerage: Brokerage
    const name: string
    const password: string

    constructor (brokerage: Brokerage, name: string, password: string)
      ensures this.brokerage == brokerage && this.name == name && this.password == password
    {
      this.brokerage := brokerage;
      this.name := name;
      this.password := password;
    }
  }

  /** A call the brokerage makes on a collaborator. */
  datatype Call =
    | ReceiveMessage(trader: Trader, text: string)  // trader.recieveMessage(text)
    | OpenWindow(trader: Trader)                    // trader.openWindow()
    | QuoteLookup(symbol: string)                   // exchange.getQuote(symbol)
    | OrderPlaced(order: TradeOrder)                // exchange.placeOrder(order)

  /** The brokerage's state as a value: the registry, the session set, and the
      calls made on collaborators so far. */
  datatype State = State(traders: map<string, Trader>, loggedTraders: set<Trader>, calls: seq<Call>)

  /** The state of a freshly initialised brokerage. */
  const INITIAL: State := State(map[], {}, [])

  /** Java's `String.length()`: the number of UTF-16 code units, so a
      character outside the Basic Multilingual Plane counts twice. */
  function Utf16Length(s: string): (r: nat)
    ensures |s| <= r <= 2 * |s|
  {
    if s == [] then 0
    else (if s[0] as int > 0xFFFF then 2 else 1) + Utf16Length(s[1..])
  }

  predicate ValidName(name: string) { 4 <= Utf16Length(name) <= 10 }

  predicate ValidPassword(password: string) { 2 <= Utf16Length(password) <= 10 }

  /** The result code of addUser: the three checks in their fixed order, the
      first failing one deciding the code. */
  function AddUserCode(s: State, name: string, password: string): (r: int)
    ensures r == -1 <==> !ValidName(name)
    ensures r == -2 <==> ValidName(name) && !ValidPassword(password)
    ensures r == -3 <==> ValidName(name) && ValidPassword(password) && name in s.traders
    ensures r == 0 <==> ValidName(name) && ValidPassword(password) && name !in s.traders
  {
    if !ValidName(name) then -1
    else if !ValidPassword(password) then -2
    else if name in s.traders then -3
    else 0
  }

  /** The effect of traders.put(name, user): one key gains the new trader, and
      nothing else changes. */
  function Register(s: State, name: string, user: Trader): (r: State)
    ensures r.traders.Keys == s.traders.Keys + {name} && r.traders[name] == user
    ensures forall n :: n in s.traders && n != name ==> r.traders[n] == s.traders[n]
    ensures r.loggedTraders == s.loggedTraders && r.calls == s.calls
  {
    s.(traders := s.traders[name := user])
  }

  /** An argument of Java's `Collection.contains(Object)`. */
  datatype JavaObject = JavaString(text: string) | JavaTrader(trader: Trader)

  /** `Set<Trader>.contains(o)` on an equals-based set: true when `o.equals(m)`
      for some member `m`. `String.equals` is false for anything that is not a
      String, so a String is never contained, whatever `Trader.equals` does.
      For a Trader argument, Trader equality is taken to be identity. */
  function SetContains(traders: set<Trader>, o: JavaObject): (b: bool)
  {
    match o
    case JavaString(_) => false
    case JavaTrader(t) => t in traders
  }

  /** The result code of login. The "already logged in" test asks the set of
      logged-in traders whether it contains the NAME, so, as written, it never
      fires and -3 is never returned. */
  function LoginCode(s: State, name: string, password: string): (r: int)
    ensures r == -1 <==> name !in s.traders
    ensures r == -2 <==> name in s.traders && s.traders[name].password != password
    ensures r == 0 <==> name in s.traders && s.traders[name].password == password
    ensures r != -3
  {
    if name !in s.traders then -1
    else if s.traders[name].password != password then -2
    else if SetContains(s.loggedTraders, JavaString(name)) then -3
    else 0
  }

  /** The effect of a successful login: the trader is welcomed, then its window
      is opened, then it joins the session set (which holds it at most once). */
  function OpenSession(s: State, user: Trader): (r: State)
    ensures r.traders == s.traders
    ensures r.loggedTraders == s.loggedTraders + {user}
    ensures user in s.loggedTraders ==> r.loggedTraders == s.loggedTraders
    ensures |r.calls| == |s.calls| + 2 && r.calls[..|s.calls|] == s.calls
    ensures r.calls[|s.calls|] == ReceiveMessage(user, WELCOME)
    ensures r.calls[|s.calls| + 1] == OpenWindow(user)
  {
    State(s.traders, s.loggedTraders + {user}, s.calls + [ReceiveMessage(user, WELCOME), OpenWindow(user)])
  }

  /** The effect of logout: the trader leaves the session set, whether or not it
      was in it; nothing else changes. */
  function CloseSession(s: State, trader: Trader): (r: State)
    ensures trader !in r.loggedTraders
    ensures r.loggedTraders + {trader} >= s.loggedTraders && r.loggedTraders <= s.loggedTraders
    ensures trader !in s.loggedTraders ==> r == s
    ensures r.traders == s.traders && r.calls == s.calls
  {
    s.(loggedTraders := s.loggedTraders - {trader})
  }

  /** The effect of getQuote: the exchange is asked first, and its answer is
      then delivered, unchanged, to the requesting trader. */
  function RelayQuote(s: State, exchange: StockExchange, symbol: string, trader: Trader): (r: State)
    ensures r.traders == s.traders && r.loggedTraders == s.loggedTraders
    ensures |r.calls| == |s.calls| + 2 && r.calls[..|s.calls|] == s.calls
    ensures r.calls[|s.calls|..] == [QuoteLookup(symbol), ReceiveMessage(trader, exchange.quoteFor(symbol))]
  {
    s.(calls := s.calls + [QuoteLookup(symbol), ReceiveMessage(trader, exchange.quoteFor(symbol))])
  }

  /** The effect of placeOrder: a null order does nothing; any other order is
      passed to the exchange once, as it is. */
  function ForwardOrder(s: State, order: TradeOrder?): (r: State)
    ensures order == null ==> r == s
    ensures order != null ==> r.calls == s.calls + [OrderPlaced(order)]
    ensures r.traders == s.traders && r.loggedTraders == s.loggedTraders
  {
    if order == null then s else s.(calls := s.calls + [OrderPlaced(order)])
  }

  /** Every window the brokerage opens is opened right after that trader was
      welcomed. */
  ghost predicate WindowsFollowWelcome(calls: seq<Call>)
  {
    forall i :: 0 <= i < |calls| && calls[i].OpenWindow? ==>
      0 < i && calls[i - 1] == ReceiveMessage(calls[i].trader, WELCOME)
  }

  /** The invariant of the brokerage: each account is filed under its own name;
      each logged-in trader is the registered account of its name and has had
      its window opened; windows are opened only after a welcome. */
  ghost predicate Inv(s: State)
  {
    && (forall n :: n in s.traders ==> s.traders[n].name == n)
    && (forall t :: t in s.loggedTraders ==> t.name in s.traders && s.traders[t.name] == t)
    && (forall t :: t in s.loggedTraders ==> OpenWindow(t) in s.calls)
    && WindowsFollowWelcome(s.calls)
  }

  // The initial state satisfies the invariant, and every operation keeps it.

  lemma InitialInv()
    ensures Inv(INITIAL)
  {
  }

  lemma RegisterPreservesInv(s: State, name: string, user: Trader)
    requires Inv(s) && name !in s.traders && user.name == name
    ensures Inv(Register(s, name, user))
  {
  }

  lemma OpenSessionPreservesInv(s: State, name: string)
    requires Inv(s) && name in s.traders
    ensures Inv(OpenSession(s, s.traders[name]))
  {
  }

  lemma CloseSessionPreservesInv(s: State, trader: Trader)
    requires Inv(s)
    ensures Inv(CloseSession(s, trader))
  {
  }

  lemma RelayQuotePreservesInv(s: State, exchange: StockExchange, symbol: string, trader: Trader)
    requires Inv(s)
    ensures Inv(RelayQuote(s, exchange, symbol, trader))
  {
  }

  lemma ForwardOrderPreservesInv(s: State, order: TradeOrder?)
    requires Inv(s)
    ensures Inv(ForwardOrder(s, order))
  {
  }

  /** The Brokerage object. The source declares no constructor; the one here
      gives the initialised state: no accounts, no sessions, an exchange. */
  class Brokerage {
    var traders: map<string, Trader>
    var loggedTraders: set<Trader>
    const exchange: StockExchange
    /** The calls made on collaborators so far, oldest first. */
    ghost var calls: seq<Call>

    ghost function Model(): State
      reads this
    {
      State(traders, loggedTraders, calls)
    }

    ghost predicate Valid()
      reads this
    {
      Inv(Model()) && forall n :: n in traders ==> traders[n].brokerage == this
    }

    constructor (exchange: StockExchange)
      ensures Valid() && Model() == INITIAL && this.exchange == exchange
    {
      traders := map[];
      loggedTraders := {};
      this.exchange := exchange;
      calls := [];
    }

    method AddUser(name: string, password: string) returns (r: int)
      requires Valid()
      modifies this
      ensures Valid()
      ensures r == AddUserCode(old(Model()), name, password)
      ensures r == 0 ==>
        && name in traders && fresh(traders[name])
        && traders[name].name == name && traders[name].password == password
        && Model() == Register(old(Model()), name, traders[name])
      ensures r != 0 ==> Model() == old(Model())
    {
      if !ValidName(name) {
        return -1;
      }
      if !ValidPassword(password) {
        return -2;
      }
      if name in traders {
        return -3;
      }
      var user := new Trader(this, name, password);
      RegisterPreservesInv(Model(), name, user);
      traders := traders[name := user];
      return 0;
    }

    method GetQuote(symbol: string, trader: Trader)
      requires Valid()
      modifies this`calls
      ensures Valid()
      ensures Model() == RelayQuote(old(Model()), exchange, symbol, trader)
    {
      var quote := exchange.quoteFor(symbol);
      RelayQuotePreservesInv(Model(), exchange, symbol, trader);
      calls := calls + [QuoteLookup(symbol)];
      calls := calls + [ReceiveMessage(trader, quote)];
    }

    method Login(name: string, password: string) returns (r: int)
      requires Valid()
      modifies this`loggedTraders, this`calls
      ensures Valid()
      ensures r == LoginCode(old(Model()), name, password)
      ensures r == 0 ==> Model() == OpenSession(old(Model()), old(traders)[name])
      ensures r != 0 ==> Model() == old(Model())
    {
      if name !in traders {
        return -1;
      }
      var user := traders[name];
      if user.password != password {
        return -2;
      }
      if SetContains(loggedTraders, JavaString(name)) {
        return -3;
      }
      ghost var before := Model();
      OpenSessionPreservesInv(before, name);
      calls := calls + [ReceiveMessage(user, WELCOME)];
      calls := calls + [OpenWindow(user)];
      loggedTraders := loggedTraders + {user};
      assert calls == before.calls + [ReceiveMessage(user, WELCOME), OpenWindow(user)];
      assert Model() == OpenSession(before, user);
      return 0;
    }

    method Logout(trader: Trader)
      requires Valid()
      modifies this`loggedTraders
      ensures Valid()
      ensures Model() == CloseSession(old(Model()), trader)
    {
      CloseSessionPreservesInv(Model(), trader);
      loggedTraders := loggedTraders - {trader};
    }

    method PlaceOrder(order: TradeOrder?)
      requires Valid()
      modifies this`calls
      ensures Valid()
      ensures Model() == ForwardOrder(old(Model()), order)
    {
      ForwardOrderPreservesInv(Model(), order);
      if order == null {
        return;
      }
      calls := calls + [OrderPlaced(order)];
    }
  }
}
