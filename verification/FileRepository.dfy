/** The durable transaction repository: an in-memory index, rewritten to a text file on every save and rebuilt from
    it when the repository is opened. One line per transaction, tab-separated fields, decimal numbers. */
module FileRepository {
  import opened Common
  import opened Lifecycle
  import opened Domain
  import opened Decimal

  const TAB: char := '\t'
  const NEWLINE: char := '\n'

  // ----- Reading up to a delimiter -----

  datatype GetLineResult = EndOfInput | Got(text: string, rest: string)

  /** Characters up to the delimiter or the end of input. */
  function Upto(s: string, delim: char): (r: string)
    ensures r <= s && delim !in r
  {
    if s == "" || s[0] == delim then "" else [s[0]] + Upto(s[1..], delim)
  }

  /** std::getline: the delimiter is consumed and not returned; an exhausted stream fails. */
  function GetLine(s: string, delim: char): (r: GetLineResult)
    ensures r.Got? ==> |r.rest| < |s| && delim !in r.text
  {
    if s == "" then EndOfInput
    else
      var text := Upto(s, delim);
      Got(text, if |text| < |s| then s[|text| + 1..] else "")
  }

  lemma {:induction false} UptoDelimiter(text: string, delim: char, rest: string)
    requires delim !in text
    ensures Upto(text + [delim] + rest, delim) == text == Upto(text, delim)
  {
    if text != "" {
      UptoDelimiter(text[1..], delim, rest);
      assert (text + [delim] + rest)[1..] == text[1..] + [delim] + rest;
    }
  }

  lemma GetLineDelimited(text: string, delim: char, rest: string)
    requires delim !in text
    ensures GetLine(text + [delim] + rest, delim) == Got(text, rest)
  {
    UptoDelimiter(text, delim, rest);
  }

  lemma GetLineLast(text: string, delim: char)
    requires delim !in text && text != ""
    ensures GetLine(text, delim) == Got(text, "")
  {
    UptoDelimiter(text, delim, "");
  }

  // ----- One record -----

  function CurrencyCode(c: Currency): int32 {
    match c case INR => 0 case USD => 1 case EUR => 2
  }

  function MethodCode(m: PaymentMethod): int32 {
    match m case Card => 0 case Upi => 1 case Wallet => 2 case NetBanking => 3
  }

  function StatusCode(s: TxnStatus): int32 {
    match s
    case Initiated => 0
    case Authorized => 1
    case Captured => 2
    case Settled => 3
    case Failed => 4
    case Refunded => 5
  }

  /** A transaction as the repository handles it. Its enumerations are plain int codes, converted without a check
      in either direction, so codes that name no enumerator are values like any other. */
  datatype Record = Record(
    id: string,
    idempotencyKey: string,
    payer: string,
    payee: string,
    minor: int64,
    ccy: int32,
    paymentMethod: int32,
    status: int32,
    createdAt: int64)

  function RecordOf(t: Transaction): Record {
    Record(t.id, t.idempotencyKey, t.payer, t.payee, t.amount.minor, CurrencyCode(t.amount.ccy),
           MethodCode(t.paymentMethod), StatusCode(t.status), t.createdAt)
  }

  /** The enumerators in order of declaration: code k is the k-th of them. */
  const CURRENCIES: seq<Currency> := [INR, USD, EUR]
  const METHODS: seq<PaymentMethod> := [Card, Upi, Wallet, NetBanking]
  const STATUSES: seq<TxnStatus> := [Initiated, Authorized, Captured, Settled, Failed, Refunded]

  lemma CodesFollowDeclarations(k: nat)
    ensures k < 3 ==> CurrencyCode([INR, USD, EUR][k]) == k
    ensures k < 4 ==> MethodCode([Card, Upi, Wallet, NetBanking][k]) == k
    ensures k < 6 ==> StatusCode([Initiated, Authorized, Captured, Settled, Failed, Refunded][k]) == k
  {
  }

  /** The cast from a code back to an enumerator, if it names one. */
  function Enumerator<T>(all: seq<T>, code: int): Option<T> {
    if 0 <= code < |all| then Some(all[code]) else None
  }

  /** The transaction a record stands for; None if a code names no enumerator. */
  function TransactionOf(r: Record): Option<Transaction> {
    var ccy := Enumerator(CURRENCIES, r.ccy);
    var paymentMethod := Enumerator(METHODS, r.paymentMethod);
    var status := Enumerator(STATUSES, r.status);
    if ccy.None? || paymentMethod.None? || status.None? then None
    else Some(Transaction(r.id, r.idempotencyKey, r.payer, r.payee, Money(r.minor, ccy.value), paymentMethod.value,
                          status.value, r.createdAt))
  }

  /** A record determines its transaction, and the records of transactions are those whose codes name enumerators. */
  lemma RecordsAreTransactions(t: Transaction, r: Record)
    ensures TransactionOf(RecordOf(t)) == Some(t)
    ensures TransactionOf(r) == Some(t) <==> r == RecordOf(t)
  {
  }

  lemma RecordOfInjective(t: Transaction, u: Transaction)
    ensures RecordOf(t) == RecordOf(u) <==> t == u
  {
    RecordsAreTransactions(t, RecordOf(u));
  }

  function Join(fields: seq<string>): string {
    if fields == [] then ""
    else if |fields| == 1 then fields[0]
    else fields[0] + [TAB] + Join(fields[1..])
  }

  function Fields(t: Record): seq<string> {
    [t.id, t.idempotencyKey, t.payer, t.payee,
     Print(t.minor), Print(t.ccy), Print(t.paymentMethod), Print(t.status), Print(t.createdAt)]
  }

  function Serialize(t: Record): string {
    Join(Fields(t))
  }

  /** The first `n` fields of a line; None when it has fewer. Whatever follows them is ignored. */
  function ReadFields(line: string, n: nat): (r: Option<seq<string>>)
    ensures r.Some? ==> |r.value| == n
    decreases n
  {
    if n == 0 then Some([])
    else
      match GetLine(line, TAB)
      case EndOfInput => None
      case Got(field, rest) =>
        var others := ReadFields(rest, n - 1);
        if others.None? then None else Some([field] + others.value)
  }

  /** Skipped is a line with too few fields, which the loader passes over; Unreadable is a number that does not
      parse, which it does not survive. */
  datatype Parsed = Skipped | Unreadable | Row(txn: Record)

  function Deserialize(line: string): Parsed {
    var fields := ReadFields(line, 9);
    if fields.None? then Skipped
    else
      var f := fields.value;
      var minor := Stoll(f[4]);
      var ccy := Stoi(f[5]);
      var paymentMethod := Stoi(f[6]);
      var status := Stoi(f[7]);
      var createdAt := Stoll(f[8]);
      if minor.None? || ccy.None? || paymentMethod.None? || status.None? || createdAt.None? then Unreadable
      else Row(Record(f[0], f[1], f[2], f[3], minor.value, ccy.value, paymentMethod.value, status.value,
                      createdAt.value))
  }

  predicate FreeOf(t: Record, c: char) {
    c !in t.id && c !in t.idempotencyKey && c !in t.payer && c !in t.payee
  }

  /** What every client-supplied string would have to be; nothing in the system checks it. */
  predicate Clean(t: Record) {
    FreeOf(t, TAB) && FreeOf(t, NEWLINE)
  }

  lemma {:induction false} ReadFieldsJoined(fields: seq<string>, n: nat)
    requires fields != [] && fields[|fields| - 1] != "" && n <= |fields|
    requires forall k :: 0 <= k < |fields| ==> TAB !in fields[k]
    ensures ReadFields(Join(fields), n) == Some(fields[..n])
  {
    hide GetLine, Upto;
    if n == 0 {
    } else if |fields| == 1 {
      GetLineLast(fields[0], TAB);
      assert ReadFields("", 0) == Some([]);
      assert ReadFields(fields[0], 1) == Some([fields[0]] + []);
      assert fields[..n] == [fields[0]] + [];
    } else {
      GetLineDelimited(fields[0], TAB, Join(fields[1..]));
      ReadFieldsJoined(fields[1..], n - 1);
      assert fields[..n] == [fields[0]] + fields[1..][..n - 1];
    }
  }

  /** How many fields a line has to offer: an empty last one does not count. */
  lemma {:induction false} FieldsCounted(fields: seq<string>, n: nat)
    requires fields != [] && forall k :: 0 <= k < |fields| ==> TAB !in fields[k]
    ensures ReadFields(Join(fields), n).Some? <==> n < |fields| || (n == |fields| && fields[|fields| - 1] != "")
  {
    hide GetLine, Upto;
    if n > 0 {
      assert GetLine("", TAB) == EndOfInput by {
        NothingToRead();
      }
      if |fields| > 1 {
        GetLineDelimited(fields[0], TAB, Join(fields[1..]));
        FieldsCounted(fields[1..], n - 1);
      } else if fields[0] != "" {
        GetLineLast(fields[0], TAB);
        assert ReadFields("", n - 1).Some? <==> n == 1;
      }
    }
  }

  lemma NothingToRead()
    ensures GetLine("", TAB) == EndOfInput
  {
  }

  /** Fields never hold the delimiter they were split at, nor a character their line does not hold. */
  lemma {:induction false} FieldsAreFree(line: string, n: nat, c: char)
    requires ReadFields(line, n).Some? && (c == TAB || c !in line)
    ensures forall k :: 0 <= k < n ==> c !in ReadFields(line, n).value[k]
    decreases n
  {
    if n > 0 {
      FieldsAreFree(GetLine(line, TAB).rest, n - 1, c);
    }
  }

  lemma ParsedIsFree(line: string, c: char)
    requires Deserialize(line).Row? && (c == TAB || c !in line)
    ensures FreeOf(Deserialize(line).txn, c)
  {
    FieldsAreFree(line, 9, c);
  }

  lemma NumbersAreClean(n: int)
    ensures TAB !in Print(n) && NEWLINE !in Print(n) && Print(n) != ""
  {
  }

  /** The layout of a line: nine fields in this order, separated by tabs. */
  lemma LineLayout(t: Record)
    ensures Serialize(t) ==
      t.id + "\t" + (t.idempotencyKey + "\t" + (t.payer + "\t" + (t.payee + "\t" + (Print(t.minor) + "\t"
      + (Print(t.ccy) + "\t" + (Print(t.paymentMethod) + "\t" + (Print(t.status) + "\t" + Print(t.createdAt))))))))
  {
    hide Print, Join;
    var f := Fields(t);
    Unroll(f, 0);
    Unroll(f, 1);
    Unroll(f, 2);
    Unroll(f, 3);
    Unroll(f, 4);
    Unroll(f, 5);
    Unroll(f, 6);
    Unroll(f, 7);
    Unroll(f, 8);
    assert f[0..] == f;
  }

  lemma Unroll(fields: seq<string>, k: nat)
    requires k < |fields|
    ensures Join(fields[k..]) == if k == |fields| - 1 then fields[k] else fields[k] + "\t" + Join(fields[k + 1..])
  {
    assert fields[k..][1..] == fields[k + 1..];
  }

  /** A record reads back, every field of it, exactly when no string in it holds a tab: an empty key and the extreme
      amounts included. */
  lemma LineRoundTrip(t: Record, line: string)
    requires line == Serialize(t)
    ensures Deserialize(line) == Row(t) <==> FreeOf(t, TAB)
  {
    if FreeOf(t, TAB) {
      NumbersAreClean(t.minor);
      NumbersAreClean(t.ccy);
      NumbersAreClean(t.paymentMethod);
      NumbersAreClean(t.status);
      NumbersAreClean(t.createdAt);
      ReadFieldsJoined(Fields(t), 9);
      assert Fields(t)[..9] == Fields(t);
      NumbersParse(t);
    } else if Deserialize(line) == Row(t) {
      ParsedIsFree(line, TAB);
    }
  }

  lemma NumbersParse(t: Record)
    ensures Stoll(Print(t.minor)) == Some(t.minor)
    ensures Stoll(Print(t.createdAt)) == Some(t.createdAt)
    ensures Stoi(Print(t.ccy)) == Some(t.ccy)
    ensures Stoi(Print(t.paymentMethod)) == Some(t.paymentMethod)
    ensures Stoi(Print(t.status)) == Some(t.status)
  {
    hide Print, ParseIn;
    PrintParses(t.minor, INT64_MIN, INT64_MAX);
    PrintParses(t.createdAt, INT64_MIN, INT64_MAX);
    PrintParses(t.ccy, -0x8000_0000, 0x7FFF_FFFF);
    PrintParses(t.paymentMethod, -0x8000_0000, 0x7FFF_FFFF);
    PrintParses(t.status, -0x8000_0000, 0x7FFF_FFFF);
  }

  lemma {:induction false} JoinFree(fields: seq<string>, c: char)
    requires c != TAB
    ensures c in Join(fields) <==> exists k :: 0 <= k < |fields| && c in fields[k]
  {
    if |fields| > 1 {
      JoinFree(fields[1..], c);
      assert forall k :: 0 <= k < |fields| - 1 ==> fields[1..][k] == fields[k + 1];
      if k :| 0 <= k < |fields| && c in fields[k] && k > 0 {
        assert fields[1..][k - 1] == fields[k];
      }
    }
  }

  /** A record is never empty, and is one line exactly when its strings are. */
  lemma RecordIsOneLine(t: Record)
    ensures Serialize(t) != ""
    ensures NEWLINE !in Serialize(t) <==> FreeOf(t, NEWLINE)
  {
    JoinFree(Fields(t), NEWLINE);
    NumbersAreClean(t.minor);
    NumbersAreClean(t.ccy);
    NumbersAreClean(t.paymentMethod);
    NumbersAreClean(t.status);
    NumbersAreClean(t.createdAt);
    var f := Fields(t);
    assert f[0] == t.id && f[1] == t.idempotencyKey && f[2] == t.payer && f[3] == t.payee;
  }

  // ----- The whole file -----

  type Index = map<string, Record>

  /** The order in which a hash map happens to be traversed. */
  ghost predicate Lists(order: seq<string>, index: Index) {
    Distinct(order) && (forall k :: k in order <==> k in index)
  }

  /** The file written when the index is traversed in this order. */
  function FileText(index: Index, order: seq<string>): string
    requires forall k :: k in order ==> k in index
  {
    if order == [] then ""
    else FileText(index, order[..|order| - 1]) + Serialize(index[order[|order| - 1]]) + [NEWLINE]
  }

  /** What a rewrite can leave in the file. */
  ghost predicate Written(index: Index, text: string) {
    exists order :: Lists(order, index) && text == FileText(index, order)
  }

  /** The index rebuilt line by line; None when a line stops the load. */
  function LoadLines(text: string, index: Index): Option<Index>
    decreases |text|
  {
    match GetLine(text, NEWLINE)
    case EndOfInput => Some(index)
    case Got(line, rest) =>
      if line == "" then LoadLines(rest, index)
      else
        match Deserialize(line)
        case Skipped => LoadLines(rest, index)
        case Unreadable => None
        case Row(t) => LoadLines(rest, index[t.id := t])
  }

  function Load(text: string): Option<Index> {
    LoadLines(text, map[])
  }

  /** Every transaction is filed under its own id. */
  ghost predicate Keyed(index: Index) {
    forall k :: k in index ==> index[k].id == k
  }

  ghost predicate AllClean(index: Index) {
    forall k :: k in index ==> Clean(index[k])
  }

  lemma LoadOneLine(t: Record, rest: string, index: Index)
    requires Clean(t)
    ensures LoadLines(Serialize(t) + [NEWLINE] + rest, index) == LoadLines(rest, index[t.id := t])
  {
    hide Deserialize, Serialize;
    RecordIsOneLine(t);
    LineRoundTrip(t, Serialize(t));
    GetLineDelimited(Serialize(t), NEWLINE, rest);
  }

  /** Blank lines are passed over, and so are lines of fewer than nine fields, or of nine of which the last is empty. */
  lemma ShortLinesAreSkipped(fields: seq<string>, rest: string, index: Index)
    requires forall k :: 0 <= k < |fields| ==> TAB !in fields[k] && NEWLINE !in fields[k]
    requires |fields| < 9 || (|fields| == 9 && fields[8] == "")
    ensures LoadLines(Join(fields) + "\n" + rest, index) == LoadLines(rest, index)
  {
    hide Deserialize, Join, Upto;
    var line := Join(fields);
    JoinFree(fields, NEWLINE);
    GetLineDelimited(line, NEWLINE, rest);
    if line != "" {
      ShortIsSkipped(fields);
    }
  }

  lemma ShortIsSkipped(fields: seq<string>)
    requires forall k :: 0 <= k < |fields| ==> TAB !in fields[k]
    requires |fields| < 9 || (|fields| == 9 && fields[8] == "")
    requires Join(fields) != ""
    ensures Deserialize(Join(fields)) == Skipped
  {
    hide ReadFields;
    FieldsCounted(fields, 9);
  }

  ghost function Restricted(index: Index, order: seq<string>): Index
    requires forall k :: k in order ==> k in index
  {
    map k | k in order :: index[k]
  }

  lemma {:induction false} LoadWritten(index: Index, order: seq<string>, rest: string)
    requires Keyed(index) && AllClean(index) && (forall k :: k in order ==> k in index)
    ensures LoadLines(FileText(index, order) + rest, map[]) == LoadLines(rest, Restricted(index, order))
  {
    hide LoadLines;
    if order == [] {
      assert FileText(index, order) + rest == rest;
      assert Restricted(index, order) == map[];
    } else {
      var most, last := order[..|order| - 1], order[|order| - 1];
      assert order == most + [last];
      var t := index[last];
      var line := Serialize(t) + [NEWLINE];
      assert FileText(index, order) + rest == FileText(index, most) + (line + rest);
      LoadWritten(index, most, line + rest);
      LoadOneLine(t, rest, Restricted(index, most));
      assert Restricted(index, order) == Restricted(index, most)[t.id := t];
    }
  }

  /** Whatever is loaded is clean, since it was cut out at tabs and newlines. */
  lemma {:induction false} LoadedIsClean(text: string, index: Index)
    requires AllClean(index) && LoadLines(text, index).Some?
    ensures AllClean(LoadLines(text, index).value)
    decreases |text|
  {
    hide Deserialize;
    match GetLine(text, NEWLINE)
    case EndOfInput =>
    case Got(line, rest) =>
      if line == "" || Deserialize(line).Skipped? {
        LoadedIsClean(rest, index);
      } else {
        var t := Deserialize(line).txn;
        ParsedIsFree(line, TAB);
        ParsedIsFree(line, NEWLINE);
        LoadedIsClean(rest, index[t.id := t]);
      }
  }

  /** A rewritten file loads back to the index it was written from, whatever the traversal order, exactly when no
      string in the index holds a tab or a newline. */
  lemma FileRoundTrip(index: Index, text: string)
    requires Keyed(index) && Written(index, text)
    ensures Load(text) == Some(index) <==> AllClean(index)
  {
    hide LoadLines;
    if AllClean(index) {
      var order :| Lists(order, index) && text == FileText(index, order);
      LoadWritten(index, order, "");
      assert FileText(index, order) + "" == text;
      assert Restricted(index, order) == index;
      assert LoadLines("", index) == Some(index) by {
        LoadNothing(index);
      }
    } else if Load(text) == Some(index) {
      LoadedIsClean(text, map[]);
    }
  }

  lemma LoadNothing(index: Index)
    ensures LoadLines("", index) == Some(index)
  {
  }

  /** A tab in the key moves the payee to where the amount is read. */
  lemma TabShiftsFields(t: Record, before: string, after: string)
    requires t.idempotencyKey == before + [TAB] + after
    requires TAB !in t.id + before + after + t.payer + t.payee
    ensures ReadFields(Serialize(t), 9).Some?
    ensures ReadFields(Serialize(t), 9).value[..5] == [t.id, before, after, t.payer, t.payee]
  {
    var shifted := [t.id, before, after] + Fields(t)[2..];
    var tail := Join(Fields(t)[2..]);
    assert Join(Fields(t)[1..]) == t.idempotencyKey + [TAB] + tail by {
      assert Fields(t)[1..][1..] == Fields(t)[2..];
    }
    assert Join(shifted[1..]) == before + [TAB] + (after + [TAB] + tail) by {
      assert shifted[1..][1..][1..] == Fields(t)[2..];
    }
    assert Serialize(t) == Join(shifted);
    NumbersAreClean(t.minor);
    NumbersAreClean(t.ccy);
    NumbersAreClean(t.paymentMethod);
    NumbersAreClean(t.status);
    NumbersAreClean(t.createdAt);
    ReadFieldsJoined(shifted, 9);
  }

  /** What the assumption that keys never contain tabs leaves open: after saving one payment whose client-supplied
      key holds a tab, the repository cannot be opened again. */
  lemma TabInKeyBreaksReopening(t: Record, before: string, after: string)
    requires t.idempotencyKey == before + [TAB] + after
    requires TAB !in t.id + before + after + t.payer + t.payee
    requires FreeOf(t, NEWLINE) && Stoll(t.payee).None?
    ensures Load(FileText(map[t.id := t], [t.id])) == None
  {
    hide Serialize, ReadFields, Stoll, Stoi;
    var line := Serialize(t);
    TabShiftsFields(t, before, after);
    assert ReadFields(line, 9).value[4] == ReadFields(line, 9).value[..5][4];
    RecordIsOneLine(t);
    assert FileText(map[t.id := t], [t.id]) == line + [NEWLINE] + "" by {
      assert [t.id][..0] == [];
    }
    GetLineDelimited(line, NEWLINE, "");
  }

  lemma BobIsNoNumber()
    ensures Stoll("bob").None?
  {
    assert SkipSpaces("bob") == "bob" && DigitPrefix("bob") == "";
  }

  lemma TabInKeyExample()
    ensures var t := RecordOf(Transaction("txn_1", "k\tx", "alice", "bob", Money(100, INR), Card, Captured, 0));
            Load(FileText(map[t.id := t], [t.id])) == None
  {
    hide Load, FileText, Stoll, MethodCode, StatusCode, CurrencyCode;
    BobIsNoNumber();
    var t := RecordOf(Transaction("txn_1", "k\tx", "alice", "bob", Money(100, INR), Card, Captured, 0));
    assert t.idempotencyKey == "k" + [TAB] + "x";
    TabInKeyBreaksReopening(t, "k", "x");
  }

  // ----- Refinement of the in-memory repository -----

  datatype Op = Save(txn: Record) | Find(id: string) | Reopen

  /** The open repository's index, None after a failed open, and the file. */
  datatype Repo = Repo(index: Option<Index>, file: string)

  const NO_FILE: Repo := Repo(Some(map[]), "")

  /** One operation; a save may write the file in any order. */
  ghost predicate Step(r: Repo, op: Op, r': Repo) {
    match op
    case Save(t) =>
      if r.index.None? then r' == r
      else
        r'.index == Some(r.index.value[t.id := t]) && Written(r'.index.value, r'.file)
    case Find(_) => r' == r
    case Reopen => r' == Repo(Load(r.file), r.file)
  }

  /** The in-memory repository after the same operations: reopening is nothing to it. */
  function InMemory(ops: seq<Op>): Index {
    if ops == [] then map[]
    else
      var store := InMemory(ops[..|ops| - 1]);
      match ops[|ops| - 1]
      case Save(t) => store[t.id := t]
      case _ => store
  }

  ghost predicate IsRun(ops: seq<Op>, states: seq<Repo>) {
    && |states| == |ops| + 1
    && states[0] == NO_FILE
    && forall k :: 0 <= k < |ops| ==> Step(states[k], ops[k], states[k + 1])
  }

  /** Answers of find. */
  function Lookup(index: Index, id: string): Option<Record> {
    if id in index then Some(index[id]) else None
  }

  /** Every later find answers as the in-memory one would. */
  ghost predicate Agrees(ops: seq<Op>, states: seq<Repo>, k: nat)
    requires k <= |ops| && k < |states|
  {
    states[k].index.Some? && forall id :: Lookup(states[k].index.value, id) == Lookup(InMemory(ops[..k]), id)
  }

  lemma SameAnswersSameIndex(a: Index, b: Index)
    requires forall id :: Lookup(a, id) == Lookup(b, id)
    ensures a == b
  {
    forall id
      ensures id in a <==> id in b
      ensures id in a ==> a[id] == b[id]
    {
      assert Lookup(a, id) == Lookup(b, id);
    }
  }

  lemma {:induction false} InMemoryKeyed(ops: seq<Op>)
    ensures Keyed(InMemory(ops))
  {
    if ops != [] {
      InMemoryKeyed(ops[..|ops| - 1]);
    }
  }

  /** The file is some listing of the index. */
  ghost predicate Flushed(r: Repo) {
    r.index.Some? && Written(r.index.value, r.file)
  }

  /** One more operation keeps the agreement unless it reopens a file with a tab or a newline in some string. */
  lemma StepAgrees(ops: seq<Op>, states: seq<Repo>, k: nat)
    requires IsRun(ops, states) && k < |ops| && Flushed(states[k]) && states[k].index == Some(InMemory(ops[..k]))
    ensures states[k + 1].index == Some(InMemory(ops[..k + 1])) <==> (ops[k].Reopen? ==> AllClean(InMemory(ops[..k])))
    ensures states[k + 1].index == Some(InMemory(ops[..k + 1])) ==> Flushed(states[k + 1])
  {
    hide FileText, Load;
    assert Step(states[k], ops[k], states[k + 1]);
    assert ops[..k + 1][..k] == ops[..k] && ops[..k + 1][k] == ops[k];
    if ops[k].Reopen? {
      InMemoryKeyed(ops[..k]);
      FileRoundTrip(states[k].index.value, states[k].file);
    }
  }

  lemma {:induction false} StaysTheSame(ops: seq<Op>, states: seq<Repo>, n: nat)
    requires IsRun(ops, states) && n <= |ops|
    requires forall k :: 0 <= k < n && ops[k].Reopen? ==> AllClean(InMemory(ops[..k]))
    ensures Flushed(states[n]) && states[n].index == Some(InMemory(ops[..n]))
  {
    hide Load, AllClean, Step;
    if n == 0 {
      assert Lists([], map[]) && FileText(map[], []) == "";
      assert ops[..0] == [];
    } else {
      StaysTheSame(ops, states, n - 1);
      StepAgrees(ops, states, n - 1);
    }
  }

  /** The file repository answers as the in-memory one throughout a run, any saves and reopenings in any order with
      any traversal order at each rewrite, exactly when no reopening meets a stored tab or newline. */
  lemma FileRefinesMemory(ops: seq<Op>, states: seq<Repo>)
    requires IsRun(ops, states)
    ensures (forall k :: 0 <= k <= |ops| ==> Agrees(ops, states, k))
       <==> (forall k :: 0 <= k < |ops| && ops[k].Reopen? ==> AllClean(InMemory(ops[..k])))
  {
    if forall k :: 0 <= k < |ops| && ops[k].Reopen? ==> AllClean(InMemory(ops[..k])) {
      forall k | 0 <= k <= |ops|
        ensures Agrees(ops, states, k)
      {
        StaysTheSame(ops, states, k);
      }
    } else {
      var k := FirstDirtyReopen(ops, |ops|);
      StaysTheSame(ops, states, k);
      StepAgrees(ops, states, k);
      if Agrees(ops, states, k + 1) {
        SameAnswersSameIndex(states[k + 1].index.value, InMemory(ops[..k + 1]));
        assert false;
      }
    }
  }

  lemma {:induction false} FirstDirtyReopen(ops: seq<Op>, n: nat) returns (k: nat)
    requires n <= |ops| && exists j :: 0 <= j < n && ops[j].Reopen? && !AllClean(InMemory(ops[..j]))
    ensures k < n && ops[k].Reopen? && !AllClean(InMemory(ops[..k]))
    ensures forall j :: 0 <= j < k && ops[j].Reopen? ==> AllClean(InMemory(ops[..j]))
  {
    k := n - 1;
    if exists j :: 0 <= j < n - 1 && ops[j].Reopen? && !AllClean(InMemory(ops[..j])) {
      k := FirstDirtyReopen(ops, n - 1);
    }
  }

  /** In particular when every saved transaction is clean. */
  lemma CleanSavesAreDurable(ops: seq<Op>, states: seq<Repo>, k: nat)
    requires IsRun(ops, states) && k <= |ops|
    requires forall t :: Save(t) in ops ==> Clean(t)
    ensures Agrees(ops, states, k)
  {
    forall j | 0 <= j < |ops|
      ensures AllClean(InMemory(ops[..j]))
    {
      SavedClean(ops, j);
    }
    FileRefinesMemory(ops, states);
  }

  lemma {:induction false} SavedClean(ops: seq<Op>, n: nat)
    requires n <= |ops| && forall t :: Save(t) in ops ==> Clean(t)
    ensures AllClean(InMemory(ops[..n]))
  {
    if n > 0 {
      SavedClean(ops, n - 1);
      assert ops[..n][..n - 1] == ops[..n - 1] && ops[n - 1] in ops;
    }
  }

  /** A transaction saved in a run is what every later find answers, status and all, until it is saved again: however
      often the repository is reopened in between, if the strings saved hold no tab and no newline. */
  lemma SavedIsFound(ops: seq<Op>, states: seq<Repo>, n: nat, k: nat, t: Transaction)
    requires IsRun(ops, states) && n < k <= |ops| && ops[n] == Save(RecordOf(t))
    requires forall r :: Save(r) in ops ==> Clean(r)
    requires forall j :: n < j < k && ops[j].Save? ==> ops[j].txn.id != t.id
    ensures states[k].index.Some? && t.id in states[k].index.value
    ensures TransactionOf(states[k].index.value[t.id]) == Some(t)
  {
    CleanSavesAreDurable(ops, states, k);
    StillThere(ops, n, k, RecordOf(t));
    assert Lookup(states[k].index.value, t.id) == Lookup(InMemory(ops[..k]), t.id);
    RecordsAreTransactions(t, RecordOf(t));
  }

  lemma {:induction false} StillThere(ops: seq<Op>, n: nat, k: nat, r: Record)
    requires n < k <= |ops| && ops[n] == Save(r)
    requires forall j :: n < j < k && ops[j].Save? ==> ops[j].txn.id != r.id
    ensures Lookup(InMemory(ops[..k]), r.id) == Some(r)
  {
    assert ops[..k][..k - 1] == ops[..k - 1] && ops[..k][k - 1] == ops[k - 1];
    if n < k - 1 {
      StillThere(ops, n, k - 1, r);
    }
  }

  // ----- The repository itself -----

  /** The file outlives the repository objects that use it. */
  class Disk {
    var text: string

    constructor ()
      ensures text == ""
    {
      text := "";
    }
  }

  class FileTransactionRepository {
    const disk: Disk
    var index: Index

    /** The object before its load. */
    constructor Unloaded(disk: Disk)
      ensures this.disk == disk && index == map[]
    {
      this.disk := disk;
      index := map[];
    }

    /** Opening reads the file; null stands for the exception that leaves the source's constructor. */
    static method Open(disk: Disk) returns (repo: FileTransactionRepository?)
      ensures repo != null <==> Load(disk.text).Some?
      ensures repo != null ==> fresh(repo) && repo.disk == disk && Some(repo.index) == Load(disk.text)
    {
      var r := new FileTransactionRepository.Unloaded(disk);
      var ok := r.LoadFromDisk();
      repo := if ok then r else null;
    }

    method LoadFromDisk() returns (ok: bool)
      requires index == map[]
      modifies this
      ensures ok <==> Load(disk.text).Some?
      ensures ok ==> Some(index) == Load(disk.text)
    {
      var rest := disk.text;
      while true
        invariant LoadLines(rest, index) == Load(disk.text)
        decreases |rest|
      {
        var line;
        match GetLine(rest, NEWLINE) {
          case EndOfInput => return true;
          case Got(text, more) => line, rest := text, more;
        }
        if line == "" {
          continue;
        }
        match Deserialize(line) {
          case Skipped =>
          case Unreadable => return false;
          case Row(t) => index := index[t.id := t];
        }
      }
    }

    method Find(id: string) returns (r: Option<Record>)
      ensures r == Lookup(index, id)
    {
      r := if id in index then Some(index[id]) else None;
    }

    /** The write is in the file before save returns. */
    method Save(t: Record)
      modifies this, disk
      ensures Step(Repo(Some(old(index)), old(disk.text)), Op.Save(t), Repo(Some(index), disk.text))
      ensures index == old(index)[t.id := t] && Flushed(Repo(Some(index), disk.text))
    {
      index := index[t.id := t];
      FlushToDisk();
    }

    method FlushToDisk()
      modifies disk
      ensures Flushed(Repo(Some(index), disk.text))
    {
      disk.text := "";
      var left := index.Keys;
      ghost var order := [];
      while left != {}
        invariant Distinct(order) && left <= index.Keys
        invariant forall k :: k in order <==> k in index && k !in left
        invariant disk.text == FileText(index, order)
      {
        var k :| k in left;
        disk.text := disk.text + Serialize(index[k]) + [NEWLINE];
        left := left - {k};
        assert (order + [k])[..|order|] == order;
        order := order + [k];
      }
      assert Lists(order, index);
    }
  }
}
