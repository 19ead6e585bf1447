# SafeTrade brokerage, modelled in Dafny

This project models `Brokerage`, the broker of the SafeTrade trading
simulation. It has three parts:

- an account registry: a map from screen name to `Trader`, filled by `addUser`;
- a session tracker: the set of traders currently logged in, changed by
  `login` and `logout`;
- a router: `getQuote` and `placeOrder` pass requests on to the stock
  exchange.

`safetrade.dfy` (module `SafeTrade`) holds the model:

- the collaborators `Trader`, `StockExchange` and `TradeOrder`, as classes;
- a value `State` holding the registry, the session set and the record of
  collaborator calls;
- one specification function per operation. For `addUser` and `login` one
  function gives the result code; a second gives the effect on the state;
- the invariant `Inv`;
- the class `Brokerage`. Its fields `traders`, `loggedTraders` and `exchange`
  are the Java fields. Each of its methods is proved to implement its
  specification function and to keep `Inv`.

Every call the brokerage makes on a collaborator is recorded, in order, in
the ghost field `calls`. That covers `recieveMessage` and `openWindow` on a
`Trader`, and `getQuote` and `placeOrder` on the `StockExchange`. The record
states which calls happen, and in what order: the welcome comes before the
window, and a null order is never forwarded.

`runs.dfy` (module `BrokerageRuns`) gives the properties:

- properties of single calls;
- properties of any sequence of client requests (`Run`), proved by
  induction over the sequence;
- the end-to-end scenario register / login / login / logout / login.

Result codes are the source's integers: -1, -2, -3 and 0.

Name and password lengths are measured as Java's `String.length()` measures
them, in UTF-16 code units (`Utf16Length`): a character outside the Basic
Multilingual Plane counts twice.

### Where the documentation and the code disagree

The doc comment of `login` (Brokerage.java:112-114) promises -3 for a trader
who is already logged in. The code tests `loggedTraders.contains(name)`
(Brokerage.java:128). That passes the name, a `String`, to a `Set<Trader>`.
An equals-based set answers `contains(o)` by asking `o.equals(m)` of its
members, and `String.equals` is false for anything that is not a string. So
the test is always false, whatever `Trader.equals` does. As written, a second
correct login therefore returns 0 again. It sends a second welcome and opens
a second window. The set still holds the trader once. The model follows the
code. `SetContains` models Java's `contains(Object)` on a set of traders.
`LoginCode` states that -3 is never returned. `RepeatLoginSucceeds` and
`AliceSession` show the repeat login returning 0.

The source declares no constructor (Brokerage.java:10-14), so the fields are
never initialised there. The Dafny constructor stands for an initialised
brokerage: an empty registry, an empty session set, and a given exchange.

## Model

| member | source | states |
|---|---|---|
| SafeTrade.Brokerage.constructor | Brokerage.java:10-14 | an initialised brokerage has no accounts, no sessions and no recorded calls, and satisfies the invariant |
| SafeTrade.Utf16Length | Brokerage.java:69-76 | the length used by the checks is Java's `length()`: between one and two code units per character |
| SafeTrade.AddUserCode | Brokerage.java:67-80 | name length in UTF-16 units is checked first (-1 iff outside 4..10), then password length (-2 iff outside 2..10), then uniqueness (-3 iff the name is taken); 0 exactly when all three pass |
| SafeTrade.Register | Brokerage.java:82-84 | the registry gains exactly the key `name`, mapped to the new trader; every other key keeps its trader; sessions and calls are untouched |
| SafeTrade.Brokerage.AddUser | Brokerage.java:67-86 | returns the code of the ordered checks; on 0, a freshly allocated trader with that name and password is filed under the name and nothing else changes; on any other code the whole state is unchanged; the invariant is kept |
| SafeTrade.LoginCode | Brokerage.java:116-131 | -1 iff the name is unregistered, -2 iff it is registered with another password, 0 iff the password matches; -3 is never returned, because the "already logged in" test asks a set of traders about a string |
| SafeTrade.OpenSession | Brokerage.java:133-137 | on success the trader's welcome "Welcome to SafeTrade!" is the next call and opening its window the one after it; the trader is then in the session set, which gains no second copy when it was already there |
| SafeTrade.Brokerage.Login | Brokerage.java:116-138 | returns the login code; on 0 the state becomes OpenSession of the registered trader; on any other code nothing changes (no message, no window, same sessions); the invariant is kept |
| SafeTrade.CloseSession | Brokerage.java:147-150 | the trader is no longer logged in and no one else leaves; logging out a trader who was not logged in changes nothing; registry and calls are untouched |
| SafeTrade.Brokerage.Logout | Brokerage.java:147-150 | the state becomes CloseSession of the trader; the invariant is kept |
| SafeTrade.RelayQuote | Brokerage.java:97-100 | the exchange is asked for the symbol's quote first, and its answer is then delivered unchanged to the requesting trader; registry and sessions are untouched |
| SafeTrade.Brokerage.GetQuote | Brokerage.java:97-100 | the state becomes RelayQuote of the symbol and trader; the invariant is kept |
| SafeTrade.ForwardOrder | Brokerage.java:160-168 | a null order leaves the state as it was; any other order is passed to the exchange exactly once, as it is |
| SafeTrade.Brokerage.PlaceOrder | Brokerage.java:160-168 | the state becomes ForwardOrder of the order; the invariant is kept |
| SafeTrade.RegisterPreservesInv | Brokerage.java:82-84 | filing a new trader under its own name, when the name is new, keeps the invariant |
| SafeTrade.OpenSessionPreservesInv | Brokerage.java:133-137 | logging in a registered trader keeps the invariant: its window opens right after its welcome, and it is the registered account of its name |
| BrokerageRuns.BadNameRefused | Brokerage.java:69-72 | a name shorter than 4 or longer than 10 UTF-16 units gives -1 whatever the password, and the state is unchanged |
| BrokerageRuns.BadPasswordRefused | Brokerage.java:73-76 | with a valid name, a password shorter than 2 or longer than 10 UTF-16 units gives -2, and the state is unchanged |
| BrokerageRuns.CharLength | Brokerage.java:69-76 | every single character counts as Java's `length()` counts it: two code units above U+FFFF, one otherwise |
| BrokerageRuns.NonBmpShortNameAccepted | Brokerage.java:69-84 | a three-character name with one character outside the Basic Multilingual Plane has length 4 and is accepted |
| BrokerageRuns.NonBmpLongNameRefused | Brokerage.java:69-72 | a ten-character name with one character outside the Basic Multilingual Plane has length 11 and gets -1 |
| BrokerageRuns.SecondRegistrationRefused | Brokerage.java:77-80 | once a name is registered, registering it again never succeeds (-3 when the password length is valid) and leaves the state as it was, so the first account, password included, stays |
| BrokerageRuns.RefusedLoginChangesNothing | Brokerage.java:118-127 | an unknown name gives -1 and a wrong password gives -2; in both cases no message is sent, no window is opened and the session set is unchanged |
| BrokerageRuns.RepeatLoginSucceeds | Brokerage.java:112-135 | as written, a second correct login returns 0 again (not the documented -3), with a second welcome and window, while the session set still holds the trader once |
| BrokerageRuns.LogoutIdempotent | Brokerage.java:147-150 | logging out twice equals logging out once; logging out a trader who is not logged in changes nothing |
| BrokerageRuns.RunPreservesInv | Brokerage.java:67-167 | after any sequence of calls: each account is filed under its own name, only registered traders are logged in, each had its window opened, and every window was opened right after a welcome |
| BrokerageRuns.RunKeepsAccounts | Brokerage.java:77-84 | after any sequence of calls, every name registered before still maps to the same trader: accounts are never replaced or removed |
| BrokerageRuns.RunExtendsCalls | Brokerage.java:97-167 | any sequence of calls only appends to the record of collaborator calls |
| BrokerageRuns.RunWithoutLoginOpensNothing | Brokerage.java:133-150 | a sequence of calls with no login adds no trader to the session set |
| BrokerageRuns.AliceSession | Brokerage.java:67-150 | register "alice"/"pw1", log in, log in again, log out, log in: as written every call returns 0, alice ends logged in once, and the record is welcome then window, three times |

## Left out

- `toString` (Brokerage.java:180-203): a reflective dump of the fields that prints to standard output; it has no behaviour worth verifying.
- The test-only getters (Brokerage.java:26-51): they return the fields, which are Dafny fields here.
- `Trader`, `StockExchange` and `TradeOrder` are not part of this model beyond what the brokerage uses. A trader's `recieveMessage` and `openWindow` and the exchange's `placeOrder` are entries in the call record. The exchange's quote is an uninterpreted function of the symbol, so quotes do not change as orders arrive.
- Trader equality: Trader.java is not part of this model. Traders are compared by identity when `login` adds one to the session set and `logout` removes one (Brokerage.java:135, 149).
- The kind of set: `loggedTraders` is never initialised in the source (Brokerage.java:12). It is taken to be an equals/hash-based set such as `HashSet`. A `TreeSet` would instead throw `ClassCastException` from `contains(name)` once it is non-empty; that is not modelled.
- The `Trader` constructor is assumed to store the name and password it is given, and `getPassword` (Brokerage.java:124) is assumed to return the stored password.
- Null arguments other than the order: the model cannot express a null name, password or trader, so what the source does with them is not modelled (some of those calls return a code or do nothing, others fail). The uninitialised fields are not modelled either.
- Concurrency: the source is single-threaded and has no locking.
- The integer result codes are kept as integers rather than an enumeration.
