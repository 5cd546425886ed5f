/** The tables the transaction service works on, as values. */
module Schema {

  datatype Option<+T> = None | Some(value: T)

  type UserId = nat
  type AccountId = nat
  type CardId = nat
  type TxId = nat

  /** Money is counted in units of 1/10000; a DECIMAL(19,4) column holds at most this many. */
  const MAX_UNITS: int := 9_999_999_999_999_999_999

  datatype TxType = National | International

  datatype Method = Debit | Credit

  datatype Status = Pending | Completed | Failed | Scheduled | Processing

  /** The HMAC of a card number, as an injective function of its digits. */
  datatype Digest = Hmac(digits: string)

  datatype Account = Account(user: UserId, balance: int)

  datatype Card = Card(account: AccountId, cardType: Method, digest: Digest)

  datatype Tx = Tx(
    card: CardId,
    origin: AccountId,
    destination: string,
    amount: int,
    kind: TxType,
    paidBy: Method,
    status: Status,
    scheduledFor: Option<int>,
    reversalOf: Option<TxId>,
    createdAt: int)

  /** The body of a message on the international payment queue. */
  datatype Message = Message(
    tx: TxId, origin: AccountId, destination: string, amount: int, paidBy: Method)

  /** The committed contents of the three tables. */
  datatype Db = Db(
    accounts: map<AccountId, Account>,
    cards: map<CardId, Card>,
    txs: map<TxId, Tx>)

  const EMPTY_DB := Db(map[], map[], map[])

  function MessageOf(id: TxId, row: Tx): Message {
    Message(id, row.origin, row.destination, row.amount, row.paidBy)
  }

  /** The message is for the row: its id, origin, destination, amount and method. */
  predicate Tells(m: Message, t: TxId, row: Tx) {
    && m.tx == t && m.origin == row.origin && m.destination == row.destination
    && m.amount == row.amount && m.paidBy == row.paidBy
  }

  /** Every pending row has its message on the queue. */
  ghost predicate Announced(db: Db, queue: seq<Message>) {
    forall t :: t in db.txs && db.txs[t].status.Pending? ==> exists m :: m in queue && Tells(m, t, db.txs[t])
  }

  function SetBalance(accounts: map<AccountId, Account>, a: AccountId, balance: int): map<AccountId, Account>
    requires a in accounts
  {
    accounts[a := accounts[a].(balance := balance)]
  }

  /** The row debits its origin account. */
  predicate Spends(row: Tx) {
    row.kind.National? && row.paidBy.Debit? && row.status.Completed?
  }

  predicate Terminal(status: Status) {
    status.Completed? || status.Failed?
  }

  /** Equal in every column but the status. */
  predicate SameTerms(r: Tx, r': Tx) {
    r' == r.(status := r'.status)
  }

  /** The digits of a card number, its hyphens dropped. */
  function Digits(number: string): string {
    if number == "" then ""
    else if number[0] == '-' then Digits(number[1..])
    else [number[0]] + Digits(number[1..])
  }

  function CardDigest(number: string): Digest {
    Hmac(Digits(number))
  }

  /** Sixteen characters other than hyphens, written in one piece or in groups of four. */
  predicate WrittenAs(number: string, x: string) {
    && |x| == 16 && '-' !in x
    && (number == x || number == x[..4] + "-" + x[4..8] + "-" + x[8..12] + "-" + x[12..])
  }

  lemma {:induction false} DigitsOfPlain(x: string)
    requires '-' !in x
    ensures Digits(x) == x
  {
    if x != "" {
      DigitsOfPlain(x[1..]);
    }
  }

  lemma {:induction false} DigitsOfParts(x: string, y: string)
    ensures Digits(x + y) == Digits(x) + Digits(y)
  {
    if x == "" {
      assert x + y == y;
    } else {
      DigitsOfParts(x[1..], y);
      assert (x + y)[1..] == x[1..] + y;
    }
  }

  lemma DigitsOfGroup(x: string, y: string)
    requires '-' !in x
    ensures Digits(x + "-" + y) == x + Digits(y)
  {
    DigitsOfParts(x + "-", y);
    DigitsOfParts(x, "-");
    DigitsOfPlain(x);
    assert Digits("-") == "" by {
      assert "-"[1..] == "";
    }
  }

  lemma DigitsOfGroups(a: string, b: string, c: string, d: string)
    requires '-' !in a && '-' !in b && '-' !in c && '-' !in d
    ensures Digits(a + "-" + b + "-" + c + "-" + d) == a + b + c + d
  {
    hide Digits;
    DigitsOfPlain(d);
    DigitsOfGroup(c, d);
    DigitsOfGroup(b, c + "-" + d);
    DigitsOfGroup(a, b + "-" + (c + "-" + d));
    assert a + "-" + b + "-" + c + "-" + d == a + "-" + (b + "-" + (c + "-" + d));
  }

  /** However a number is written, its digest is that of its sixteen characters. */
  lemma {:induction false} DigestOfWritten(number: string, x: string)
    requires WrittenAs(number, x)
    ensures CardDigest(number) == Hmac(x)
  {
    hide Digits;
    if number == x {
      DigitsOfPlain(x);
    } else {
      DigitsOfGroups(x[..4], x[4..8], x[8..12], x[12..]);
      assert x == x[..4] + x[4..8] + x[8..12] + x[12..];
    }
  }
}
