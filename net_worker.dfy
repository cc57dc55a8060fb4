/** The post-fetch logic of the network worker (src/Workers/net-worker/stellar-ecosystem.ts):
    status checks, record selection, sorting and trimming of asset records, and the
    request URLs. A fetched response is given as its status and its parsed body. */
module NetWorker {
  import opened Wrappers

  /** An HTTP response: its status and its parsed JSON body. */
  datatype Response<B> = Response(status: int, body: B)

  /** `BadResponseError` carries the status and the server name; the price endpoint
      throws a plain `Error` that names only the status. */
  datatype FetchError =
    | BadResponseError(status: int, server: string)
    | ConversionRateError(status: int)

  /** A record of the stellar.expert well-known account directory. */
  datatype AccountRecord = AccountRecord(address: string, name: string, tags: seq<string>)

  datatype IssuerDetail = IssuerDetail(name: string, url: string, otherFields: map<string, string>)

  /** A ticker asset record; `otherFields` stands for the JSON fields the wallet does not keep. */
  datatype AssetRecord = AssetRecord(
    code: string,
    desc: string,
    issuer: string,
    issuerDetail: IssuerDetail,
    name: string,
    numAccounts: int,
    status: string,
    assetType: string,
    otherFields: map<string, string>)

  /** The quote of one currency in a price response. */
  datatype QuoteRecord = QuoteRecord(price: real)

  const StellarExpertServer := "stellar.expert"
  const DirectoryEndpoint := "https://api.stellar.expert/api/explorer/directory"
  const AddressQuery := "?address[]="
  const QuotesHost := "https://api.satoshipay.io/"
  const QuotesPath := "/coinmarketcap/v1/cryptocurrency/quotes/latest"
  const SymbolQuery := "?symbol=XLM&convert="

  /** The stellar.expert status rule: every status from 400 up is a `BadResponseError`. */
  function StellarExpertStatus(status: int): (r: Option<FetchError>)
    ensures r.Some? <==> status >= 400
    ensures r.Some? ==> r.value.BadResponseError? && r.value.status == status && r.value.server == "stellar.expert"
  {
    if status >= 400 then Some(BadResponseError(status, StellarExpertServer)) else None
  }

  /** The directory request for one account. */
  function DirectoryRequestUrl(accountId: string): (url: string)
    ensures DirectoryEndpoint + AddressQuery <= url
    ensures url[|DirectoryEndpoint + AddressQuery|..] == accountId
  {
    DirectoryEndpoint + AddressQuery + accountId
  }

  /** Different accounts are never looked up under the same URL. */
  lemma DirectoryRequestUrlInjective(a: string, b: string)
    requires DirectoryRequestUrl(a) == DirectoryRequestUrl(b)
    ensures a == b
  {
    var n := |DirectoryEndpoint + AddressQuery|;
    assert a == DirectoryRequestUrl(a)[n..];
  }

  /** `fetchWellknownAccount` after the fetch: the first directory record, or null. */
  function WellknownAccountOf(response: Response<seq<AccountRecord>>): (r: Result<Option<AccountRecord>, FetchError>)
    ensures r.Failure? <==> response.status >= 400
    ensures r.Failure? ==> r.error == BadResponseError(response.status, "stellar.expert")
    ensures r.Success? ==> (r.value.Some? <==> |response.body| > 0)
    ensures r.Success? && r.value.Some? ==> r.value.value == response.body[0]
  {
    match StellarExpertStatus(response.status)
    case Some(e) => Failure(e)
    case None =>
      var records := response.body;
      Success(if |records| > 0 then Some(records[0]) else None)
  }

  /** The comparator handed to `Array.prototype.sort`: negative puts `a` first. */
  function ByAccountCountSorter(a: AssetRecord, b: AssetRecord): (d: int)
    ensures d < 0 <==> a.numAccounts > b.numAccounts
    ensures d == 0 <==> a.numAccounts == b.numAccounts
  {
    b.numAccounts - a.numAccounts
  }

  /** Ordered as the comparator asks: no record is placed before one it should follow. */
  ghost predicate SortedByAccountCount(s: seq<AssetRecord>) {
    forall i, j :: 0 <= i < j < |s| ==> ByAccountCountSorter(s[i], s[j]) <= 0
  }

  /** Inserts `x` ahead of the first record with no more accounts than it has,
      so that earlier records stay ahead of later ones with equal counts. */
  function InsertByAccountCount(x: AssetRecord, s: seq<AssetRecord>): (r: seq<AssetRecord>)
    requires SortedByAccountCount(s)
    ensures SortedByAccountCount(r)
    ensures multiset(r) == multiset(s) + multiset{x}
    ensures |r| == |s| + 1
  {
    if s == [] then [x]
    else if s[0].numAccounts > x.numAccounts then
      SortedTail(s);
      var tail := InsertByAccountCount(x, s[1..]);
      assert s == [s[0]] + s[1..];
      HeadBeforeInserted(x, s, tail);
      [s[0]] + tail
    else
      InsertAhead(x, s);
      [x] + s
  }

  /** A record with at least as many accounts as the head may go first. */
  lemma InsertAhead(x: AssetRecord, s: seq<AssetRecord>)
    requires s != [] && SortedByAccountCount(s) && s[0].numAccounts <= x.numAccounts
    ensures SortedByAccountCount([x] + s)
  {
    forall i, j | 0 <= i < j < |[x] + s|
      ensures ByAccountCountSorter(([x] + s)[i], ([x] + s)[j]) <= 0
    {
      if i == 0 {
        assert ByAccountCountSorter(s[0], s[j - 1]) <= 0 || j - 1 == 0;
      }
    }
  }

  /** The head of a sorted list may stay ahead of a list made of its tail and a smaller record. */
  lemma HeadBeforeInserted(x: AssetRecord, s: seq<AssetRecord>, tail: seq<AssetRecord>)
    requires s != [] && SortedByAccountCount(s) && s[0].numAccounts > x.numAccounts
    requires SortedByAccountCount(tail)
    requires multiset(tail) == multiset(s[1..]) + multiset{x}
    ensures SortedByAccountCount([s[0]] + tail)
  {
    forall j | 0 <= j < |tail|
      ensures tail[j].numAccounts <= s[0].numAccounts
    {
      assert tail[j] in multiset(tail);
      if tail[j] != x {
        assert tail[j] in s[1..];
      }
    }
    var r := [s[0]] + tail;
    forall i, j | 0 <= i < j < |r|
      ensures ByAccountCountSorter(r[i], r[j]) <= 0
    {
      if i > 0 {
        assert r[i] == tail[i - 1] && r[j] == tail[j - 1];
      } else {
        assert r[j] == tail[j - 1];
      }
    }
  }

  /** `allAssets.sort(byAccountCountSorter)`: a stable sort, most accounts first. */
  function SortByAccountCount(s: seq<AssetRecord>): (r: seq<AssetRecord>)
    ensures SortedByAccountCount(r)
    ensures multiset(r) == multiset(s)
    ensures |r| == |s|
  {
    if s == [] then []
    else
      assert s == [s[0]] + s[1..];
      InsertByAccountCount(s[0], SortByAccountCount(s[1..]))
  }

  /** `trimAccountRecord`: keeps code, desc, issuer, the issuer's name and url, name,
      num_accounts, status and type, and drops everything else. */
  function TrimAccountRecord(record: AssetRecord): (r: AssetRecord)
    ensures r.code == record.code && r.desc == record.desc && r.issuer == record.issuer
    ensures r.issuerDetail.name == record.issuerDetail.name && r.issuerDetail.url == record.issuerDetail.url
    ensures r.name == record.name && r.numAccounts == record.numAccounts
    ensures r.status == record.status && r.assetType == record.assetType
    ensures r.otherFields == map[] && r.issuerDetail.otherFields == map[]
  {
    AssetRecord(
      record.code, record.desc, record.issuer,
      IssuerDetail(record.issuerDetail.name, record.issuerDetail.url, map[]),
      record.name, record.numAccounts, record.status, record.assetType, map[])
  }

  /** A trimmed record is left as it is by trimming again. */
  lemma TrimAccountRecordIdempotent(record: AssetRecord)
    ensures TrimAccountRecord(TrimAccountRecord(record)) == TrimAccountRecord(record)
  {
  }

  /** `.map(record => trimAccountRecord(record))`. */
  function TrimAll(s: seq<AssetRecord>): (r: seq<AssetRecord>)
    ensures |r| == |s|
    ensures forall i :: 0 <= i < |s| ==> r[i] == TrimAccountRecord(s[i])
  {
    if s == [] then [] else [TrimAccountRecord(s[0])] + TrimAll(s[1..])
  }

  /** Trimming keeps the account counts, so a sorted list stays sorted. */
  lemma TrimAllKeepsOrder(s: seq<AssetRecord>)
    requires SortedByAccountCount(s)
    ensures SortedByAccountCount(TrimAll(s))
  {
  }

  lemma TrimAllCons(a: AssetRecord, t: seq<AssetRecord>)
    ensures TrimAll([a] + t) == [TrimAccountRecord(a)] + TrimAll(t)
  {
    assert ([a] + t)[1..] == t;
  }

  lemma SortedTail(s: seq<AssetRecord>)
    requires s != [] && SortedByAccountCount(s)
    ensures SortedByAccountCount(s[1..])
  {
    forall i, j | 0 <= i < j < |s[1..]|
      ensures ByAccountCountSorter(s[1..][i], s[1..][j]) <= 0
    {
      assert s[1..][i] == s[i + 1] && s[1..][j] == s[j + 1];
    }
  }

  /** Inserting and then trimming adds the trimmed record to the trimmed list. */
  lemma {:induction false} TrimAllInsert(x: AssetRecord, s: seq<AssetRecord>)
    requires SortedByAccountCount(s)
    ensures multiset(TrimAll(InsertByAccountCount(x, s))) == multiset(TrimAll(s)) + multiset{TrimAccountRecord(x)}
  {
    if s != [] && s[0].numAccounts > x.numAccounts {
      SortedTail(s);
      TrimAllInsert(x, s[1..]);
      TrimAllInsertBehindHead(x, s);
    } else {
      assert InsertByAccountCount(x, s) == [x] + s;
      TrimAllCons(x, s);
    }
  }

  /** The step of `TrimAllInsert` where the record goes behind the head. */
  lemma TrimAllInsertBehindHead(x: AssetRecord, s: seq<AssetRecord>)
    requires s != [] && SortedByAccountCount(s) && SortedByAccountCount(s[1..])
    requires s[0].numAccounts > x.numAccounts
    requires multiset(TrimAll(InsertByAccountCount(x, s[1..]))) == multiset(TrimAll(s[1..])) + multiset{TrimAccountRecord(x)}
    ensures multiset(TrimAll(InsertByAccountCount(x, s))) == multiset(TrimAll(s)) + multiset{TrimAccountRecord(x)}
  {
    var tail := InsertByAccountCount(x, s[1..]);
    InsertBehindHead(x, s);
    TrimAllCons(s[0], tail);
    TrimAllCons(s[0], s[1..]);
    ConsMultiset(TrimAccountRecord(s[0]), TrimAll(tail), TrimAll(s[1..]), TrimAccountRecord(x));
  }

  lemma InsertBehindHead(x: AssetRecord, s: seq<AssetRecord>)
    requires s != [] && SortedByAccountCount(s) && SortedByAccountCount(s[1..])
    requires s[0].numAccounts > x.numAccounts
    ensures InsertByAccountCount(x, s) == [s[0]] + InsertByAccountCount(x, s[1..])
    ensures s == [s[0]] + s[1..]
  {
  }

  lemma ConsMultiset<T>(h: T, a: seq<T>, b: seq<T>, t: T)
    requires multiset(a) == multiset(b) + multiset{t}
    ensures multiset([h] + a) == multiset([h] + b) + multiset{t}
  {
  }

  /** Sorting and then trimming yields the trimmed input records, reordered. */
  lemma {:induction false} TrimAllSortIsPermutation(s: seq<AssetRecord>)
    ensures multiset(TrimAll(SortByAccountCount(s))) == multiset(TrimAll(s))
  {
    if s != [] {
      TrimAllSortIsPermutation(s[1..]);
      TrimAllInsert(s[0], SortByAccountCount(s[1..]));
      assert TrimAll(s) == [TrimAccountRecord(s[0])] + TrimAll(s[1..]);
    }
  }

  /** `fetchAllAssets` after the fetch: the records sorted by account count, most first,
      each trimmed; no record is lost or duplicated. */
  function AllAssetsOf(response: Response<seq<AssetRecord>>): (r: Result<seq<AssetRecord>, FetchError>)
    ensures r.Failure? <==> response.status >= 400
    ensures r.Failure? ==> r.error == BadResponseError(response.status, "stellar.expert")
    ensures r.Success? ==> |r.value| == |response.body|
    ensures r.Success? ==> SortedByAccountCount(r.value)
    ensures r.Success? ==> multiset(r.value) == multiset(TrimAll(response.body))
  {
    match StellarExpertStatus(response.status)
    case Some(e) => Failure(e)
    case None =>
      var sorted := SortByAccountCount(response.body);
      TrimAllKeepsOrder(sorted);
      TrimAllSortIsPermutation(response.body);
      Success(TrimAll(sorted))
  }

  /** The quotes endpoint: the satoshipay host, then the network, then the CoinMarketCap
      quotes path; the testnet one exactly when `testnet` is set. */
  function QuotesEndpoint(testnet: bool): (e: string)
    ensures testnet ==> e == "https://api.satoshipay.io/" + "testnet" + "/coinmarketcap/v1/cryptocurrency/quotes/latest"
    ensures !testnet ==> e == "https://api.satoshipay.io/" + "mainnet" + "/coinmarketcap/v1/cryptocurrency/quotes/latest"
    ensures QuotesHost <= e && e[|QuotesHost|..|QuotesHost| + 7] == (if testnet then "testnet" else "mainnet")
  {
    QuotesHost + (if testnet then "testnet" else "mainnet") + QuotesPath
  }

  /** The price request for a currency code on a network. */
  function CryptoPriceRequestUrl(currencyCode: string, testnet: bool): (url: string)
    ensures QuotesEndpoint(testnet) + SymbolQuery <= url
    ensures url[|QuotesEndpoint(testnet) + SymbolQuery|..] == currencyCode
  {
    QuotesEndpoint(testnet) + SymbolQuery + currencyCode
  }

  /** The request URL tells the network and the currency apart. */
  lemma CryptoPriceRequestUrlInjective(c1: string, t1: bool, c2: string, t2: bool)
    requires CryptoPriceRequestUrl(c1, t1) == CryptoPriceRequestUrl(c2, t2)
    ensures t1 == t2 && c1 == c2
  {
    var u := CryptoPriceRequestUrl(c1, t1);
    var h := |QuotesHost|;
    assert u[h] == QuotesEndpoint(t1)[h] == QuotesEndpoint(t2)[h];
    assert QuotesEndpoint(true)[h] == 't' && QuotesEndpoint(false)[h] == 'm';
    var n := |QuotesEndpoint(t1) + SymbolQuery|;
    assert c1 == u[n..] == c2;
  }

  /** `fetchCryptoPrice` after the fetch: an error from status 400 up, otherwise
      `data.XLM.quote[currencyCode]`, which is undefined for a currency the feed lacks. */
  function CryptoPriceOf(response: Response<map<string, QuoteRecord>>, currencyCode: string): (r: Result<Option<QuoteRecord>, FetchError>)
    ensures r.Failure? <==> response.status >= 400
    ensures r.Failure? ==> r.error == ConversionRateError(response.status)
    ensures r.Success? ==> (r.value.Some? <==> currencyCode in response.body)
    ensures r.Success? && r.value.Some? ==> r.value.value == response.body[currencyCode]
  {
    if response.status >= 400 then Failure(ConversionRateError(response.status))
    else if currencyCode in response.body then Success(Some(response.body[currencyCode]))
    else Success(None)
  }
}
