/** The two quota ledgers and the single SQL statements the server issues on them. */
module Ledger {

  type UserId = nat
  type TokenId = nat

  datatype Token = Token(owner: UserId, unlimited: bool, remain: int, used: int)

  /** `nextToken` is the auto-increment counter: every id ever issued is below it. */
  datatype Books = Books(users: map<UserId, int>, tokens: map<TokenId, Token>, nextToken: TokenId)

  // ----- one statement each; an UPDATE that matches no row changes nothing -----

  function AddToUser(b: Books, u: UserId, amount: int): Books {
    if u in b.users then b.(users := b.users[u := b.users[u] + amount]) else b
  }

  function AddToToken(b: Books, t: TokenId, amount: int): Books {
    if t in b.tokens then
      var row := b.tokens[t];
      b.(tokens := b.tokens[t := row.(remain := row.remain + amount, used := row.used - amount)])
    else b
  }

  /** WHERE id = ? AND quota >= ? */
  predicate UserCovers(b: Books, u: UserId, amount: int) {
    u in b.users && b.users[u] >= amount
  }

  /** WHERE id = ? AND remain_quota >= ? */
  predicate TokenCovers(b: Books, t: TokenId, amount: int) {
    t in b.tokens && b.tokens[t].remain >= amount
  }

  // ----- readings used by the accounting theorems -----

  function Balance(b: Books, u: UserId): int {
    if u in b.users then b.users[u] else 0
  }

  function Remain(b: Books, t: TokenId): int {
    if t in b.tokens then b.tokens[t].remain else 0
  }

  /** Token rows may disappear and new ids may be issued, but an issued id keeps
      its owner, its cap flag and its sum of remaining and used quota. */
  ghost predicate Evolves(b: Books, b': Books) {
    && b.nextToken <= b'.nextToken
    && b.users.Keys <= b'.users.Keys
    && forall t :: t in b'.tokens && t < b.nextToken ==>
         && t in b.tokens
         && b'.tokens[t].owner == b.tokens[t].owner
         && b'.tokens[t].unlimited == b.tokens[t].unlimited
         && b'.tokens[t].remain + b'.tokens[t].used == b.tokens[t].remain + b.tokens[t].used
  }

  lemma EvolvesTransitive(a: Books, b: Books, c: Books)
    requires Evolves(a, b) && Evolves(b, c)
    ensures Evolves(a, c)
  {
    forall t | t in c.tokens && t < a.nextToken
      ensures t in a.tokens && c.tokens[t].owner == a.tokens[t].owner
      ensures c.tokens[t].unlimited == a.tokens[t].unlimited
      ensures c.tokens[t].remain + c.tokens[t].used == a.tokens[t].remain + a.tokens[t].used
    {
      assert t in b.tokens;
    }
  }
}
