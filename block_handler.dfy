/**
 * The `BlockProvider` state container: the wallet address and the list of
 * projects it exposes to the UI, the conversion of cap amounts to token
 * units, and the `createProject` workflow (contract call, then a record
 * written to the "projects" document collection).
 *
 * Wallet, contract, document-store, uuid and clock calls are not modelled;
 * their results are parameters of the operations below.
 */
module BlockHandler {
  import opened Wrappers

  type Address = string

  /** The JavaScript value held in `state.address`: `null`, `undefined` or an account. */
  datatype AddressSlot = Null | Undefined | Addr(account: Address)

  /** One entry of `state.projects`: a placeholder number or a document's data. */
  datatype ProjectEntry = Placeholder(n: int) | Loaded(doc: ProjectRecord)

  /** The fields a caller of `createProject` fills in (dates are stamped by the workflow). */
  datatype ProjectForm = ProjectForm(
    title: string,
    subtitle: string,
    description: string,
    softCap: int,
    hardCap: int,
    minimumContribution: int,
    maximumContribution: int,
    photoUrl: string)

  /** A document of the "projects" collection as `createProject` writes it. Dates are milliseconds. */
  datatype ProjectRecord = ProjectRecord(
    backers: int,
    createdAt: int,
    description: string,
    startDate: int,
    endDate: int,
    hardCap: int,
    softCap: int,
    minimumContribution: int,
    maximumContribution: int,
    subtitle: string,
    title: string,
    id: string,
    photoUrl: string)

  /** The arguments of the factory's `createProject` call. */
  datatype ContractCall = ContractCall(
    name: string,
    symbol: string,
    creator: AddressSlot,
    softCap: int,
    hardCap: int,
    startTime: int,
    endTime: int)

  /** How the transaction ends: rejected in the wallet, reverted on chain, or confirmed. */
  datatype TxOutcome = Rejected | Reverted | Confirmed

  // ---------------------------------------------------------------------------
  // Pure helpers

  function Pow(b: int, n: nat): int
  {
    if n == 0 then 1 else b * Pow(b, n - 1)
  }

  /** `toBigNumber`: `BigNumber.from(amount).mul(10).pow(18)`, i.e. (amount * 10)^18. */
  function ToBigNumber(amount: int): int
  {
    Pow(amount * 10, 18)
  }

  /** `activeMetaMaskWallet`: the first listed account, or null when there is none. */
  function ActiveMetaMaskWallet(accounts: seq<Address>): (r: Option<Address>)
    ensures r.None? <==> |accounts| == 0
    ensures r.Some? ==> r.value == accounts[0] && r.value in accounts
  {
    if |accounts| > 0 then Some(accounts[0]) else None
  }

  /** `Math.round(ms / 1000)`: whole seconds, halves rounded up. */
  function RoundToSeconds(ms: int): (s: int)
    ensures 1000 * s - 500 <= ms < 1000 * s + 500
  {
    (ms + 500) / 1000
  }

  /** The symbol suffix appended to the project title. */
  const DaoSuffix: string := "_DAO"

  /** The arguments `createProject` passes to the factory contract. */
  function CallArgs(form: ProjectForm, creator: AddressSlot, startMs: int, endMs: int): (c: ContractCall)
    ensures c.name == form.title && c.creator == creator
    ensures |c.symbol| == |form.title| + |DaoSuffix|
    ensures c.symbol[..|form.title|] == form.title && c.symbol[|form.title|..] == DaoSuffix
    ensures c.softCap == ToBigNumber(form.softCap) && c.hardCap == ToBigNumber(form.hardCap)
    ensures 1000 * c.startTime - 500 <= startMs < 1000 * c.startTime + 500
    ensures 1000 * c.endTime - 500 <= endMs < 1000 * c.endTime + 500
  {
    ContractCall(
      form.title,
      form.title + DaoSuffix,
      creator,
      ToBigNumber(form.softCap),
      ToBigNumber(form.hardCap),
      RoundToSeconds(startMs),
      RoundToSeconds(endMs))
  }

  /** The record `createProject` writes after a confirmed transaction. */
  function NewRecord(form: ProjectForm, startMs: int, endMs: int, createdAt: int, id: string): ProjectRecord
  {
    ProjectRecord(
      0, createdAt, form.description, startMs, endMs,
      form.hardCap, form.softCap, form.minimumContribution, form.maximumContribution,
      form.subtitle, form.title, id, form.photoUrl)
  }

  /** The caller-supplied fields of a stored record. */
  function FormOf(r: ProjectRecord): ProjectForm
  {
    ProjectForm(r.title, r.subtitle, r.description, r.softCap, r.hardCap,
                r.minimumContribution, r.maximumContribution, r.photoUrl)
  }

  /** The data of a `getDocs` response, as entries of `state.projects`, in iteration order. */
  function EntriesOf(docs: seq<ProjectRecord>): (r: seq<ProjectEntry>)
  {
    seq(|docs|, i requires 0 <= i < |docs| => Loaded(docs[i]))
  }

  // ---------------------------------------------------------------------------
  // Properties of the pure helpers

  lemma MulRearrange(x: int, y: int, a: int, b: int)
    ensures (x * y) * (a * b) == (x * a) * (y * b)
  {
  }

  lemma {:induction false} PowMul(x: int, y: int, n: nat)
    ensures Pow(x * y, n) == Pow(x, n) * Pow(y, n)
  {
    if n > 0 {
      PowMul(x, y, n - 1);
      MulRearrange(x, y, Pow(x, n - 1), Pow(y, n - 1));
    }
  }

  lemma {:induction false} PowPositive(b: int, n: nat)
    requires b > 0
    ensures Pow(b, n) > 0
  {
    if n > 0 {
      PowPositive(b, n - 1);
    }
  }

  lemma {:induction false} PowZeroBase(n: nat)
    requires n > 0
    ensures Pow(0, n) == 0
  {
  }

  /** For a base of at least 2, every power past the first exceeds the base. */
  lemma {:induction false} PowExceedsBase(b: int, n: nat)
    requires b >= 2 && n >= 2
    ensures Pow(b, n) > b
  {
    if n == 2 {
      assert Pow(b, 1) == b;
      assert Pow(b, 2) == b * b;
    } else {
      PowExceedsBase(b, n - 1);
      assert Pow(b, n) == b * Pow(b, n - 1);
    }
  }

  /** Even powers are squares. */
  lemma {:induction false} PowEven(b: int, m: nat)
    ensures Pow(b, 2 * m) == Pow(b * b, m)
  {
    if m > 0 {
      PowEven(b, m - 1);
      assert Pow(b, 2 * m) == b * (b * Pow(b, 2 * m - 2));
    }
  }

  /** `toBigNumber(a)` is a^18 * 10^18: the 18th power applies to the whole product. */
  lemma ToBigNumberFactors(a: int)
    ensures ToBigNumber(a) == Pow(a, 18) * Pow(10, 18)
  {
    PowMul(a, 10, 18);
  }

  /** `toBigNumber(0)` is 0 and `toBigNumber(1)` is 10^18. */
  lemma ToBigNumberZeroOne()
    ensures ToBigNumber(0) == 0
    ensures ToBigNumber(1) == Pow(10, 18)
  {
    PowZeroBase(18);
  }

  /** `toBigNumber(5)` is 50^18. */
  lemma ToBigNumberFive()
    ensures ToBigNumber(5) == Pow(50, 18)
  {
  }

  /**
   * `toBigNumber(a)` is the fixed-point value a * 10^18 only for a = 0 and a = 1;
   * for every other amount, 5 among them, the code's value differs.
   */
  lemma ToBigNumberIsScalingIff(a: int)
    ensures ToBigNumber(a) == a * Pow(10, 18) <==> a == 0 || a == 1
  {
    ToBigNumberFactors(a);
    PowPositive(10, 18);
    var p := Pow(10, 18);
    if a == 0 {
      PowZeroBase(18);
    } else if a == 1 {
      PowOne(18);
    } else if a >= 2 {
      PowExceedsBase(a, 18);
      assert Pow(a, 18) * p > a * p;
    } else {
      PowEven(a, 9);
      PowPositive(a * a, 9);
      assert Pow(a, 18) * p > 0 > a * p;
    }
  }

  lemma {:induction false} PowOne(n: nat)
    ensures Pow(1, n) == 1
  {
    if n > 0 {
      PowOne(n - 1);
    }
  }

  /** The rounded second is the only one within half a second of the instant. */
  lemma RoundToSecondsUnique(ms: int, s: int)
    requires 1000 * s - 500 <= ms < 1000 * s + 500
    ensures RoundToSeconds(ms) == s
  {
  }

  /** Whole seconds given in milliseconds round back to themselves; a half second rounds up. */
  lemma RoundToSecondsExact(s: int)
    ensures RoundToSeconds(1000 * s) == s
    ensures RoundToSeconds(1000 * s + 500) == s + 1
    ensures RoundToSeconds(1000 * s - 500) == s
  {
  }

  /** The project title is recoverable from the token symbol by stripping the suffix. */
  lemma SymbolRecoversTitle(form: ProjectForm, creator: AddressSlot, startMs: int, endMs: int)
    ensures var c := CallArgs(form, creator, startMs, endMs);
      c.symbol[..|c.symbol| - |DaoSuffix|] == c.name
  {
  }

  /** A new record carries exactly the caller's fields, no backers, and the given dates and id. */
  lemma NewRecordFields(form: ProjectForm, startMs: int, endMs: int, createdAt: int, id: string)
    ensures var r := NewRecord(form, startMs, endMs, createdAt, id);
      FormOf(r) == form && r.backers == 0 && r.startDate == startMs && r.endDate == endMs &&
      r.createdAt == createdAt && r.id == id
  {
  }

  // ---------------------------------------------------------------------------
  // Imperative parts

  /** The building of `projects` by `push` inside `response.forEach`. */
  method CollectProjects(response: seq<ProjectRecord>) returns (projects: seq<ProjectEntry>)
    ensures |projects| == |response|
    ensures forall i :: 0 <= i < |response| ==> projects[i] == Loaded(response[i])
  {
    projects := [];
    var k := 0;
    while k < |response|
      invariant 0 <= k <= |response|
      invariant |projects| == k
      invariant forall i :: 0 <= i < k ==> projects[i] == Loaded(response[i])
    {
      projects := projects + [Loaded(response[k])];
      k := k + 1;
    }
  }

  /** The "projects" document collection; `addDoc` appends to it. */
  class DocumentStore {
    var docs: seq<ProjectRecord>

    constructor (initial: seq<ProjectRecord>)
      ensures docs == initial
    {
      docs := initial;
    }

    /** `addDoc`: appends the record when the write succeeds, otherwise changes nothing. */
    method AddDoc(r: ProjectRecord, writeOk: bool)
      modifies this
      ensures docs == if writeOk then old(docs) + [r] else old(docs)
    {
      if writeOk {
        docs := docs + [r];
      }
    }
  }

  /** The `data` object a caller passes to `createProject`; the dates are written into it. */
  class ProjectData {
    const form: ProjectForm
    var startDate: Option<int>
    var endDate: Option<int>

    constructor (form: ProjectForm)
      ensures this.form == form && startDate == None && endDate == None
    {
      this.form := form;
      startDate := None;
      endDate := None;
    }
  }

  class BlockProvider {
    /** Whether the browser injected a wallet (`window.ethereum`). */
    const hasEthereum: bool
    const db: DocumentStore
    var address: AddressSlot
    var projects: seq<ProjectEntry>
    var personalProjects: seq<ProjectEntry>
    /** Whether the `accountsChanged` handler has been registered. */
    var listening: bool

    ghost predicate Valid()
      reads this
    {
      listening ==> hasEthereum
    }

    /** The constructor's initial state: no address, three placeholder projects. */
    constructor (hasEthereum: bool, db: DocumentStore)
      ensures Valid()
      ensures this.hasEthereum == hasEthereum && this.db == db
      ensures address == Null
      ensures projects == [Placeholder(1), Placeholder(2), Placeholder(3)]
      ensures personalProjects == [] && !listening
    {
      this.hasEthereum := hasEthereum;
      this.db := db;
      address := Null;
      projects := [Placeholder(1), Placeholder(2), Placeholder(3)];
      personalProjects := [];
      listening := false;
    }

    /**
     * `componentDidMount`, given the wallet's account list and the `getDocs`
     * response, each None when that call rejects. A rejected `listAccounts`
     * aborts the mount with nothing changed. Otherwise the address is set
     * only when an account is active and the `accountsChanged` handler is
     * registered when a wallet is injected; then, unless `getDocs` rejects,
     * `projects` becomes exactly the documents' data.
     */
    method ComponentDidMount(accounts: Option<seq<Address>>, response: Option<seq<ProjectRecord>>)
      requires Valid()
      modifies this
      ensures Valid()
      ensures address == if accounts.Some? && |accounts.value| > 0 then Addr(accounts.value[0]) else old(address)
      ensures listening == (old(listening) || (accounts.Some? && hasEthereum))
      ensures projects == if accounts.Some? && response.Some? then EntriesOf(response.value) else old(projects)
      ensures personalProjects == old(personalProjects)
    {
      if accounts.None? {
        return;
      }
      var active := ActiveMetaMaskWallet(accounts.value);
      if active.Some? {
        address := Addr(active.value);
      }
      if hasEthereum {
        listening := true;
      }
      if response.None? {
        return;
      }
      var loaded := CollectProjects(response.value);
      projects := loaded;
    }

    /**
     * The `accountsChanged` handler: the address becomes the first wallet,
     * or `undefined` for an empty list. Without a registered handler the
     * event has no effect.
     */
    method AccountsChanged(wallets: seq<Address>)
      requires Valid()
      modifies this
      ensures Valid()
      ensures !hasEthereum ==> address == old(address)
      ensures address == if !listening then old(address)
                         else if |wallets| > 0 then Addr(wallets[0]) else Undefined
      ensures projects == old(projects) && personalProjects == old(personalProjects)
      ensures listening == old(listening)
    {
      if listening {
        address := if |wallets| > 0 then Addr(wallets[0]) else Undefined;
      }
    }

    /**
     * `connect`: only when the address is `null`, asks the wallet for an
     * account. `signer` is the signer's address, or None when the request
     * is rejected (the state is then unchanged).
     */
    method Connect(signer: Option<Address>)
      requires Valid()
      modifies this
      ensures Valid()
      ensures address == if old(address) == Null && signer.Some? then Addr(signer.value) else old(address)
      ensures projects == old(projects) && personalProjects == old(personalProjects)
      ensures listening == old(listening)
    {
      if address == Null {
        if signer.Some? {
          address := Addr(signer.value);
        }
      }
    }

    /**
     * `createProject`: stamps the two dates into `data`, calls the factory
     * with `CallArgs`, and after a confirmed transaction writes one record.
     * `startNow` and `endNow` are the two `new Date()` readings, `createdAt`
     * the `Date.now()` reading and `id` the `uuid()` value; `writeOk` says
     * whether `addDoc` succeeds.
     */
    method CreateProject(data: ProjectData, startNow: int, endNow: int, tx: TxOutcome,
                         createdAt: int, id: string, writeOk: bool)
      returns (call: ContractCall)
      requires Valid()
      modifies data, db
      ensures Valid()
      ensures data.startDate == Some(startNow) && data.endDate == Some(endNow)
      ensures call == CallArgs(data.form, address, startNow, endNow)
      ensures db.docs == if tx == Confirmed && writeOk
                         then old(db.docs) + [NewRecord(data.form, startNow, endNow, createdAt, id)]
                         else old(db.docs)
    {
      data.startDate := Some(startNow);
      data.endDate := Some(endNow);
      call := CallArgs(data.form, address, data.startDate.value, data.endDate.value);
      if tx == Confirmed {
        var record := NewRecord(data.form, data.startDate.value, data.endDate.value, createdAt, id);
        db.AddDoc(record, writeOk);
      }
    }
  }

  // ---------------------------------------------------------------------------
  // Scenarios over the state container

  /**
   * After a wallet disconnects every account, the address is `undefined`,
   * not `null`, so a later `connect` leaves it `undefined`.
   */
  method ConnectAfterDisconnect(accounts: seq<Address>, signer: Address) returns (final: AddressSlot)
    ensures final == Undefined
  {
    var db := new DocumentStore([]);
    var p := new BlockProvider(true, db);
    p.ComponentDidMount(Some(accounts), Some([]));
    p.AccountsChanged([]);
    p.Connect(Some(signer));
    final := p.address;
  }

  /** Without an active wallet, mounting leaves the address `null`, and `connect` then sets it. */
  method ConnectWithoutActiveWallet(response: seq<ProjectRecord>, signer: Address)
    returns (mounted: AddressSlot, connected: AddressSlot)
    ensures mounted == Null && connected == Addr(signer)
  {
    var db := new DocumentStore([]);
    var p := new BlockProvider(true, db);
    p.ComponentDidMount(Some([]), Some(response));
    mounted := p.address;
    p.Connect(Some(signer));
    connected := p.address;
  }

  /** When `getDocs` rejects, mounting still sets the address but keeps the three placeholders. */
  method MountWithRejectedLoad(accounts: seq<Address>) returns (address: AddressSlot, projects: seq<ProjectEntry>)
    ensures address == if |accounts| > 0 then Addr(accounts[0]) else Null
    ensures projects == [Placeholder(1), Placeholder(2), Placeholder(3)]
  {
    var db := new DocumentStore([]);
    var p := new BlockProvider(true, db);
    p.ComponentDidMount(Some(accounts), None);
    address, projects := p.address, p.projects;
  }

  /**
   * Creating a project grows the collection by one record exactly when the
   * transaction is confirmed and the write succeeds; the record holds the
   * form's fields.
   */
  method CreateThenCount(form: ProjectForm, existing: seq<ProjectRecord>, tx: TxOutcome, writeOk: bool,
                         now: int, id: string)
    returns (before: nat, after: nat, last: Option<ProjectRecord>)
    ensures before == |existing|
    ensures after == if tx == Confirmed && writeOk then before + 1 else before
    ensures last.Some? <==> after > 0
    ensures tx == Confirmed && writeOk ==> last.Some? && FormOf(last.value) == form && last.value.backers == 0
  {
    var db := new DocumentStore(existing);
    var p := new BlockProvider(true, db);
    var data := new ProjectData(form);
    before := |db.docs|;
    var _ := p.CreateProject(data, now, now, tx, now, id, writeOk);
    after := |db.docs|;
    last := if after > 0 then Some(db.docs[after - 1]) else None;
  }
}
