/**
  Mobile money (src/pages/admin/MobileMoneyPage.tsx): the wallets and wallet
  transactions the page loads, and its search over the transactions, which
  also looks through the phone number of each transaction's wallet.
*/
module MobileMoney {
  import opened Domain
  import opened Text
  import opened Seqs

  datatype WalletStatus = Open | Suspended | Closed
  datatype Wallet = Wallet(
    id: string, memberId: string, provider: Provider, phoneNumber: string, balance: int,
    status: WalletStatus, createdAt: string)

  datatype Kind = Deposit | Withdrawal | Transfer

  /** The type as the row stores it. */
  function KindName(k: Kind): string {
    match k
    case Deposit => "deposit"
    case Withdrawal => "withdrawal"
    case Transfer => "transfer"
  }

  datatype WalletTxn = WalletTxn(
    id: string, walletId: string, kind: Kind, amount: int, fees: int, status: TxStatus,
    reference: string, createdAt: string)

  // ---------------------------------------------------------------------------
  // The wallet lookup

  function WalletQuery(walletId: string, q: string): Wallet -> bool {
    (w: Wallet) => w.id == walletId && Includes(w.phoneNumber, q)
  }

  /** The first wallet with id `walletId` whose phone number contains `q`,
      as the search's lookup finds it. */
  function FindWallet(wallets: seq<Wallet>, walletId: string, q: string): (r: Option<Wallet>)
    ensures r.Some? <==> exists i :: 0 <= i < |wallets| && wallets[i].id == walletId
                                     && Includes(wallets[i].phoneNumber, q)
    ensures r.Some? ==>
      exists i :: 0 <= i < |wallets| && wallets[i] == r.value
                  && r.value.id == walletId && Includes(r.value.phoneNumber, q)
                  && forall j :: 0 <= j < i ==> !(wallets[j].id == walletId && Includes(wallets[j].phoneNumber, q))
  {
    FindFirst(wallets, WalletQuery(walletId, q))
  }

  // ---------------------------------------------------------------------------
  // The search

  /** A non-empty search keeps a transaction whose reference or type contains
      the lower-cased query, or whose wallet's phone number contains the
      lower-cased query. */
  predicate SearchHit(wallets: seq<Wallet>, t: WalletTxn, search: string) {
    var q := Lower(search);
    Includes(Lower(t.reference), q) || Includes(Lower(KindName(t.kind)), q)
    || FindWallet(wallets, t.walletId, q).Some?
  }

  function TxnQuery(wallets: seq<Wallet>, search: string): WalletTxn -> bool {
    (t: WalletTxn) => SearchHit(wallets, t, search)
  }

  /** The rows shown: everything for an empty search, otherwise in order
      exactly the transactions the search hits. */
  function FilterTransactions(txns: seq<WalletTxn>, wallets: seq<Wallet>, search: string): (r: seq<WalletTxn>)
    ensures search == [] ==> r == txns
    ensures IsSubsequence(r, txns)
    ensures search != [] ==> forall i :: 0 <= i < |txns| ==>
      (txns[i] in r <==> SearchHit(wallets, txns[i], search))
    ensures search != [] ==> forall t ::
      multiset(r)[t] == (if SearchHit(wallets, t, search) then multiset(txns)[t] else 0)
  {
    if search == [] then
      SubsequenceReflexive(txns);
      txns
    else
      FilterMultiplicity(txns, TxnQuery(wallets, search));
      Filter(txns, TxnQuery(wallets, search))
  }

  /** The empty-search shortcut agrees with the filter itself: the empty
      query is contained in every reference. */
  lemma EmptySearchIsNoFilter(txns: seq<WalletTxn>, wallets: seq<Wallet>)
    ensures Filter(txns, TxnQuery(wallets, [])) == FilterTransactions(txns, wallets, [])
  {
    forall t | t in txns ensures TxnQuery(wallets, [])(t) {
      EmptyQueryMatches(Lower(t.reference));
    }
    FilterKeepsAll(txns, TxnQuery(wallets, []));
  }

  /** A transaction whose wallet is not among the wallets is found only
      through its reference or its type. */
  lemma UnknownWalletOnlyByText(wallets: seq<Wallet>, t: WalletTxn, search: string)
    requires forall w :: w in wallets ==> w.id != t.walletId
    ensures SearchHit(wallets, t, search) <==>
      ContainsFolded(t.reference, search) || ContainsFolded(KindName(t.kind), search)
  {
  }

  /** A wallet whose phone number contains the lower-cased query brings in
      every transaction of that wallet. */
  lemma PhoneFindsWalletTxns(wallets: seq<Wallet>, t: WalletTxn, k: int, search: string)
    requires 0 <= k < |wallets| && wallets[k].id == t.walletId
    requires Includes(wallets[k].phoneNumber, Lower(search))
    ensures SearchHit(wallets, t, search)
  {
  }

  // ---------------------------------------------------------------------------
  // The loaded data (taken as input by the search)

  const MockWallets: seq<Wallet> := [
    Wallet("wal-1", "KS001", Mtn, "+256701234567", 450000, Open, "2025-01-03"),
    Wallet("wal-2", "KS002", Airtel, "+256772345678", 250000, Open, "2025-02-14"),
    Wallet("wal-3", "KS003", Mtn, "+256783456789", 150000, Open, "2025-03-21")
  ]

  const MockTxns: seq<WalletTxn> := [
    WalletTxn("tx-1", "wal-1", Kind.Deposit, 200000, 1000, TxStatus.Completed, "MTN123456", "2025-06-20T10:22:00"),
    WalletTxn("tx-2", "wal-2", Kind.Withdrawal, 50000, 800, TxStatus.Completed, "ATL987654", "2025-06-19T14:41:00"),
    WalletTxn("tx-3", "wal-1", Kind.Transfer, 75000, 600, TxStatus.Pending, "MTN332211", "2025-06-21T08:10:00")
  ]

  /** Every loaded transaction belongs to a loaded wallet, so each of them can
      also be found through a phone number. */
  lemma MockTxnsHaveWallets()
    ensures forall i :: 0 <= i < |MockTxns| ==>
      exists j :: 0 <= j < |MockWallets| && MockWallets[j].id == MockTxns[i].walletId
  {
    assert MockWallets[0].id == MockTxns[0].walletId;
    assert MockWallets[1].id == MockTxns[1].walletId;
    assert MockWallets[0].id == MockTxns[2].walletId;
  }
}
