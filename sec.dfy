/** The SEC EDGAR routes: `/search` over a company's recent filings,
    `/filing/:cik/:accessionNumber`, `/add-to-corpus` and `/ticker/:symbol`.
    Every `fetch` is an oracle answering with a thrown error, a response that
    is not ok, or the parsed body; the clock and `uniqueId` are parameters. */
module Sec {
  import opened Common

  const BaseUrl := "https://data.sec.gov"
  const DefaultLimit := 20
  const QueryRequired := "Search query is required"
  const CompanyNotFound := "Company not found"
  const FilingNotFound := "Filing not found"
  const MissingFields := "Missing required fields"
  const CouldNotFetch := "Could not fetch document"
  const TickerDataFailed := "Could not fetch ticker data"
  const TickerNotFound := "Ticker symbol not found"
  const Unknown := "Unknown"

  /** A field of a JSON body that `!x` tests: absent or empty is falsy. */
  predicate Truthy(s: Option<string>)
  {
    s.Some? && s.value != ""
  }

  /** What a `fetch` gives. */
  datatype Fetched<T> = Threw(message: string) | NotOk | Body(body: T)

  /** The reply of a route: JSON with status 200, or an error with its status. */
  datatype Reply<T> = Ok200(body: T) | Status(code: int, error: string)

  /** `query.padStart(10, '0')`: a CIK of fewer than ten digits gets leading
      zeros; a longer one is unchanged. */
  function PadCik(query: string): (r: string)
    ensures |query| >= 10 ==> r == query
    ensures |query| < 10 ==> |r| == 10 && r[10 - |query|..] == query && forall i :: 0 <= i < 10 - |query| ==> r[i] == '0'
  {
    PadStart(query, 10, '0')
  }

  function SubmissionsUrl(query: string): string
  {
    BaseUrl + "/submissions/CIK" + PadCik(query) + ".json"
  }

  /** The company's archive directory, `${SEC_BASE_URL}/Archives/edgar/data/${cik}/`. */
  function CompanyArchive(cik: string): string
  {
    BaseUrl + "/Archives/edgar/data/" + cik + "/"
  }

  /** The index page inside a filing's directory, `/${acc}-index.html`. */
  function IndexPage(accession: string): string
  {
    "/" + accession + "-index.html"
  }

  /** `${SEC_BASE_URL}/Archives/edgar/data/${cik}/${acc without '-'}/${acc}-index.html`,
      the form both `/search` and `/filing` use. */
  function FilingIndexUrl(cik: string, accession: string): string
  {
    CompanyArchive(cik) + RemoveAll(accession, '-') + IndexPage(accession)
  }

  /** The filing URL is the company's archive, then the filing's directory
      (the accession number with its dashes removed, so a single path
      segment), then the index page named by the full accession number. */
  lemma FilingIndexUrlParts(cik: string, accession: string)
    ensures var r := FilingIndexUrl(cik, accession);
      && |r| == |CompanyArchive(cik)| + |RemoveAll(accession, '-')| + |IndexPage(accession)|
      && r[..|CompanyArchive(cik)|] == CompanyArchive(cik)
      && r[|CompanyArchive(cik)|..|r| - |IndexPage(accession)|] == RemoveAll(accession, '-')
      && r[|r| - |IndexPage(accession)|..] == IndexPage(accession)
    ensures '-' !in RemoveAll(accession, '-')
  {
    ThreeParts(CompanyArchive(cik), RemoveAll(accession, '-'), IndexPage(accession));
  }

  /** `companyData.filings.recent`: the four parallel arrays, each `None`
      when missing (read as `[]`). */
  datatype Recent = Recent(accessionNumber: Option<seq<string>>, filingDate: Option<seq<string>>,
                           form: Option<seq<string>>, reportDate: Option<seq<string>>)

  datatype CompanyData = CompanyData(cik: string, name: string, tickers: Option<seq<string>>, recent: Option<Recent>)

  /** `x || []`. */
  function OrEmpty(s: Option<seq<string>>): seq<string>
  {
    if s.Some? then s.value else []
  }

  /** `arr[i]`: `undefined` past the end of a shorter array. */
  function At(s: seq<string>, i: int): Option<string>
  {
    if 0 <= i < |s| then Some(s[i]) else None
  }

  function Accessions(d: CompanyData): seq<string>
  {
    if d.recent.Some? then OrEmpty(d.recent.value.accessionNumber) else []
  }

  function FormTypes(d: CompanyData): seq<string>
  {
    if d.recent.Some? then OrEmpty(d.recent.value.form) else []
  }

  function FilingDates(d: CompanyData): seq<string>
  {
    if d.recent.Some? then OrEmpty(d.recent.value.filingDate) else []
  }

  function ReportDates(d: CompanyData): seq<string>
  {
    if d.recent.Some? then OrEmpty(d.recent.value.reportDate) else []
  }

  datatype Filing = Filing(accessionNumber: string, filingDate: Option<string>, reportDate: Option<string>,
                           formType: Option<string>, cik: string, companyName: string, documentUrl: string)

  /** The entry built for index `i`. */
  function FilingAt(d: CompanyData, i: nat): Filing
    requires i < |Accessions(d)|
  {
    var acc := Accessions(d)[i];
    Filing(acc, At(FilingDates(d), i), At(ReportDates(d), i), At(FormTypes(d), i), d.cik, d.name,
           FilingIndexUrl(d.cik, acc))
  }

  /** `forms && forms.length > 0 && !forms.includes(formType)` skips the entry. */
  predicate Kept(forms: Option<seq<string>>, formType: Option<string>)
  {
    forms.None? || |forms.value| == 0 || (formType.Some? && formType.value in forms.value)
  }

  /** `Math.min(accessionNumbers.length, limit)`, as a count of entries. */
  function Bound(d: CompanyData, limit: int): nat
  {
    if limit <= 0 then 0 else Min(|Accessions(d)|, limit)
  }

  /** The indices below `m` whose entry is kept, in increasing order. */
  function Selected(d: CompanyData, forms: Option<seq<string>>, m: nat): (r: seq<nat>)
    ensures |r| <= m
    ensures forall k :: 0 <= k < |r| ==> r[k] < m && Kept(forms, At(FormTypes(d), r[k]))
    decreases m
  {
    if m == 0 then []
    else Selected(d, forms, m - 1) + (if Kept(forms, At(FormTypes(d), m - 1)) then [m - 1] else [])
  }

  /** The `for` loop of `/search`: the first `Math.min(n, limit)` entries, the
      ones whose form is not asked for skipped with `continue`. */
  method CollectFilings(d: CompanyData, forms: Option<seq<string>>, limit: int) returns (filings: seq<Filing>)
    ensures |filings| == |Selected(d, forms, Bound(d, limit))|
    ensures forall k :: 0 <= k < |filings| ==>
      Selected(d, forms, Bound(d, limit))[k] < |Accessions(d)| &&
      filings[k] == FilingAt(d, Selected(d, forms, Bound(d, limit))[k])
  {
    var accessionNumbers := Accessions(d);
    var bound := Bound(d, limit);
    filings := [];
    var i := 0;
    while i < bound
      invariant 0 <= i <= bound
      invariant |filings| == |Selected(d, forms, i)|
      invariant forall k :: 0 <= k < |filings| ==>
        Selected(d, forms, i)[k] < |accessionNumbers| && filings[k] == FilingAt(d, Selected(d, forms, i)[k])
    {
      var formType := At(FormTypes(d), i);
      if forms.Some? && |forms.value| > 0 && !(formType.Some? && formType.value in forms.value) {
        i := i + 1;
        continue;
      }
      filings := filings + [FilingAt(d, i)];
      i := i + 1;
    }
  }

  /** The selection keeps the entries' order: its indices strictly increase. */
  lemma {:induction false} SelectedIncreasing(d: CompanyData, forms: Option<seq<string>>, m: nat)
    ensures forall j, k :: 0 <= j < k < |Selected(d, forms, m)| ==> Selected(d, forms, m)[j] < Selected(d, forms, m)[k]
    decreases m
  {
    if m > 0 {
      SelectedIncreasing(d, forms, m - 1);
    }
  }

  /** No kept entry below the bound is dropped. */
  lemma {:induction false} SelectedComplete(d: CompanyData, forms: Option<seq<string>>, m: nat, i: nat)
    requires i < m && Kept(forms, At(FormTypes(d), i))
    ensures i in Selected(d, forms, m)
    decreases m
  {
    if i < m - 1 {
      SelectedComplete(d, forms, m - 1, i);
    }
  }

  /** Without a form filter every one of the first `min(n, limit)` entries is
      returned, in order. */
  lemma {:induction false} NoFilterTakesAll(d: CompanyData, forms: Option<seq<string>>, m: nat)
    requires forms.None? || |forms.value| == 0
    ensures Selected(d, forms, m) == seq(m, i requires 0 <= i < m => i as nat)
    decreases m
  {
    if m > 0 {
      NoFilterTakesAll(d, forms, m - 1);
    }
  }

  datatype Company = Company(cik: string, name: string, tickers: seq<string>)

  datatype SearchResult = SearchResult(company: Company, filings: seq<Filing>)

  /** `filings.slice(0, limit)`. */
  function SliceTo<T>(s: seq<T>, limit: int): seq<T>
  {
    if limit < 0 then s[..Max(0, |s| + limit)] else s[..Min(|s|, limit)]
  }

  /** `POST /sec/search`, given the request's `query`, `forms` and `limit`
      (`None` when missing) and what the submissions fetch gave. */
  method Search(query: Option<string>, forms: Option<seq<string>>, limit: Option<int>, fetched: Fetched<CompanyData>)
    returns (reply: Reply<SearchResult>)
    ensures !Truthy(query) ==> reply == Status(400, QueryRequired)
    ensures Truthy(query) && fetched.NotOk? ==> reply == Status(404, CompanyNotFound)
    ensures Truthy(query) && fetched.Threw? ==> reply == Status(500, fetched.message)
    ensures Truthy(query) && fetched.Body? ==>
      var d := fetched.body;
      var lim := if limit.Some? then limit.value else DefaultLimit;
      && reply.Ok200?
      && reply.body.company == Company(d.cik, d.name, OrEmpty(d.tickers))
      && |reply.body.filings| == |Selected(d, forms, Bound(d, lim))|
      && forall k :: 0 <= k < |reply.body.filings| ==>
           Selected(d, forms, Bound(d, lim))[k] < |Accessions(d)| &&
           reply.body.filings[k] == FilingAt(d, Selected(d, forms, Bound(d, lim))[k])
  {
    if !Truthy(query) {
      return Status(400, QueryRequired);
    }
    match fetched {
      case Threw(message) => return Status(500, message);
      case NotOk => return Status(404, CompanyNotFound);
      case Body(d) =>
        var lim := if limit.Some? then limit.value else DefaultLimit;
        var filings := CollectFilings(d, forms, lim);
        assert |filings| <= Bound(d, lim);
        SliceNoOp(filings, lim, Bound(d, lim));
        reply := Ok200(SearchResult(Company(d.cik, d.name, OrEmpty(d.tickers)), SliceTo(filings, lim)));
    }
  }

  /** The loop returns at most `limit` entries, so the final slice cuts
      nothing off. */
  lemma SliceNoOp<T>(s: seq<T>, limit: int, bound: nat)
    requires |s| <= bound && (limit <= 0 ==> bound == 0) && (limit > 0 ==> bound <= limit)
    ensures SliceTo(s, limit) == s
  {
  }

  /** The result never holds more than `limit` entries (none for a limit of
      zero or less), and each one has the requested form when forms were given. */
  lemma SearchBound(d: CompanyData, forms: Option<seq<string>>, lim: int)
    ensures |Selected(d, forms, Bound(d, lim))| <= (if lim <= 0 then 0 else lim)
    ensures |Selected(d, forms, Bound(d, lim))| <= |Accessions(d)|
    ensures forms.Some? && |forms.value| > 0 ==>
      forall k :: 0 <= k < |Selected(d, forms, Bound(d, lim))| ==>
        At(FormTypes(d), Selected(d, forms, Bound(d, lim))[k]).Some? &&
        At(FormTypes(d), Selected(d, forms, Bound(d, lim))[k]).value in forms.value
  {
  }

  /** The document URL a search entry carries is the URL `/filing` fetches
      for the same CIK and accession number, and its directory part has no
      dashes. */
  lemma SearchUrlIsFilingUrl(d: CompanyData, i: nat)
    requires i < |Accessions(d)|
    ensures FilingAt(d, i).documentUrl == FilingIndexUrl(d.cik, Accessions(d)[i])
  {
  }

  /** The directory of a filing is its accession number with the dashes
      dropped: `0000320193-23-000106` is filed under `000032019323000106`. */
  lemma AccessionDirectory(filer: string, year: string, serial: string)
    requires '-' !in filer && '-' !in year && '-' !in serial
    ensures RemoveAll(filer + "-" + year + "-" + serial, '-') == filer + year + serial
  {
    var t := "-" + serial;
    var u := year + t;
    var v := "-" + u;
    DashThen(serial);
    KeepThen(year, t, serial);
    DashThen2(u, year + serial);
    KeepThen(filer, v, year + serial);
    AccessionShape(filer, year, serial);
  }

  lemma AccessionShape(filer: string, year: string, serial: string)
    ensures filer + "-" + year + "-" + serial == filer + ("-" + (year + ("-" + serial)))
    ensures filer + (year + serial) == filer + year + serial
  {
  }

  lemma DashThen(a: string)
    requires '-' !in a
    ensures RemoveAll("-" + a, '-') == a
  {
    assert ("-" + a)[0] == '-';
    assert ("-" + a)[1..] == a;
  }

  lemma DashThen2(a: string, r: string)
    requires RemoveAll(a, '-') == r
    ensures RemoveAll("-" + a, '-') == r
  {
    assert ("-" + a)[0] == '-';
    assert ("-" + a)[1..] == a;
  }

  lemma KeepThen(a: string, b: string, r: string)
    requires '-' !in a && RemoveAll(b, '-') == r
    ensures RemoveAll(a + b, '-') == a + r
  {
    RemoveAllAppend(a, b, '-');
  }

  /** `GET /sec/filing/:cik/:accessionNumber` up to the HTML it fetches:
      the URL fetched, or the error reply. */
  function FilingDetails(cik: string, accession: string, fetched: Fetched<string>): (r: Reply<string>)
    ensures fetched.Body? ==> r == Ok200(FilingIndexUrl(cik, accession))
    ensures fetched.NotOk? ==> r == Status(404, FilingNotFound)
    ensures fetched.Threw? ==> r == Status(500, fetched.message)
  {
    match fetched
    case Threw(m) => Status(500, m)
    case NotOk => Status(404, FilingNotFound)
    case Body(_) => Ok200(FilingIndexUrl(cik, accession))
  }

  /** `metadata` of `/add-to-corpus`. */
  datatype Metadata = Metadata(formType: Option<string>, filingDate: Option<string>, reportDate: Option<string>,
                               companyName: Option<string>)

  datatype CorpusRequest = CorpusRequest(userId: Option<string>, cik: Option<string>, accessionNumber: Option<string>,
                                         documentUrl: Option<string>, metadata: Option<Metadata>)

  /** A stored date: the given one or the insert time. */
  datatype When = Given(date: string) | Now(ms: int)

  datatype SecFilingRow = SecFilingRow(id: string, userId: string, cik: string, accessionNumber: string,
                                       formType: string, filingDate: When, reportDate: Option<string>,
                                       companyName: string, documentUrl: string, content: string, addedAt: int)

  /** `metadata?.x`: every field reads as missing when there is no metadata. */
  function Meta(md: Option<Metadata>): Metadata
  {
    if md.Some? then md.value else Metadata(None, None, None, None)
  }

  /** `x || 'Unknown'`. */
  function OrUnknown(s: Option<string>): string
  {
    if Truthy(s) then s.value else Unknown
  }

  /** `x ? x : null`, keeping only a truthy value. */
  function IfTruthy(s: Option<string>): Option<string>
  {
    if Truthy(s) then s else None
  }

  /** The row inserted for a request whose fields are all present. */
  function CorpusRow(req: CorpusRequest, filingId: string, content: string, now: int): SecFilingRow
    requires Truthy(req.userId) && Truthy(req.cik) && Truthy(req.accessionNumber) && Truthy(req.documentUrl)
  {
    var md := Meta(req.metadata);
    SecFilingRow(filingId, req.userId.value, req.cik.value, req.accessionNumber.value,
                 OrUnknown(md.formType),
                 if Truthy(md.filingDate) then Given(md.filingDate.value) else Now(now),
                 IfTruthy(md.reportDate),
                 OrUnknown(md.companyName),
                 req.documentUrl.value, content, now)
  }

  /** `POST /sec/add-to-corpus`: the row inserted, or the error reply;
      `insertFault` is the message of a failing insert. */
  function AddToCorpus(req: CorpusRequest, fetched: Fetched<string>, filingId: string, now: int,
                       insertFault: Option<string>): (r: Reply<SecFilingRow>)
    ensures !(Truthy(req.userId) && Truthy(req.cik) && Truthy(req.accessionNumber) && Truthy(req.documentUrl))
            ==> r == Status(400, MissingFields)
    ensures r.Ok200? ==> fetched.Body? && insertFault.None? && r.body.content == fetched.body && r.body.id == filingId
  {
    if !(Truthy(req.userId) && Truthy(req.cik) && Truthy(req.accessionNumber) && Truthy(req.documentUrl)) then
      Status(400, MissingFields)
    else match fetched
      case Threw(m) => Status(500, m)
      case NotOk => Status(400, CouldNotFetch)
      case Body(content) =>
        if insertFault.Some? then Status(500, insertFault.value)
        else Ok200(CorpusRow(req, filingId, content, now))
  }

  /** Missing metadata stores `Unknown` for the form type and company name,
      no report date, and the insert time as the filing date; given
      metadata is stored as given. */
  lemma CorpusDefaults(userId: string, cik: string, acc: string, url: string, content: string, id: string, now: int,
                       md: Metadata)
    requires userId != "" && cik != "" && acc != "" && url != ""
    ensures var req := CorpusRequest(Some(userId), Some(cik), Some(acc), Some(url), None);
      var r := AddToCorpus(req, Body(content), id, now, None);
      r.Ok200? && r.body.formType == Unknown && r.body.companyName == Unknown && r.body.reportDate.None?
      && r.body.filingDate == Now(now) && r.body.userId == userId && r.body.cik == cik
      && r.body.accessionNumber == acc && r.body.documentUrl == url
    ensures md.formType.Some? && md.formType.value != "" ==>
      var req := CorpusRequest(Some(userId), Some(cik), Some(acc), Some(url), Some(md));
      AddToCorpus(req, Body(content), id, now, None).body.formType == md.formType.value
    ensures md.companyName == Some("") ==>
      var req := CorpusRequest(Some(userId), Some(cik), Some(acc), Some(url), Some(md));
      AddToCorpus(req, Body(content), id, now, None).body.companyName == Unknown
  {
  }

  /** A failed document fetch is a 400 and nothing is inserted. */
  lemma CorpusFetchFailure(req: CorpusRequest, id: string, now: int, fault: Option<string>)
    requires Truthy(req.userId) && Truthy(req.cik) && Truthy(req.accessionNumber) && Truthy(req.documentUrl)
    ensures AddToCorpus(req, NotOk, id, now, fault) == Status(400, CouldNotFetch)
  {
  }

  /** One entry of `company_tickers.json`. */
  datatype TickerEntry = TickerEntry(cikStr: string, title: string, ticker: string)

  datatype TickerInfo = TickerInfo(cik: string, name: string, ticker: string)

  /** `Object.values(tickerData).find(c => c.ticker === symbol.toUpperCase())`. */
  function FindTicker(entries: seq<TickerEntry>, symbol: string): (r: Option<nat>)
    ensures r.Some? ==> (r.value < |entries| && entries[r.value].ticker == ToUpperAscii(symbol)
                         && forall j :: 0 <= j < r.value ==> entries[j].ticker != ToUpperAscii(symbol))
    ensures r.None? ==> forall j :: 0 <= j < |entries| ==> entries[j].ticker != ToUpperAscii(symbol)
    decreases |entries|
  {
    if |entries| == 0 then None
    else if entries[0].ticker == ToUpperAscii(symbol) then Some(0)
    else match FindTicker(entries[1..], symbol)
      case None => None
      case Some(k) => Some(k + 1)
  }

  /** `GET /sec/ticker/:symbol`. */
  function Ticker(symbol: string, fetched: Fetched<seq<TickerEntry>>): (r: Reply<TickerInfo>)
    ensures fetched.Threw? ==> r == Status(500, fetched.message)
    ensures fetched.NotOk? ==> r == Status(500, TickerDataFailed)
    ensures fetched.Body? && FindTicker(fetched.body, symbol).None? ==> r == Status(404, TickerNotFound)
    ensures fetched.Body? && FindTicker(fetched.body, symbol).Some? ==>
      var e := fetched.body[FindTicker(fetched.body, symbol).value];
      r == Ok200(TickerInfo(PadCik(e.cikStr), e.title, ToUpperAscii(symbol)))
    ensures r.Ok200? ==> fetched.Body? && FindTicker(fetched.body, symbol).Some?
  {
    match fetched
    case Threw(m) => Status(500, m)
    case NotOk => Status(500, TickerDataFailed)
    case Body(entries) =>
      match FindTicker(entries, symbol)
      case None => Status(404, TickerNotFound)
      case Some(k) => Ok200(TickerInfo(PadCik(entries[k].cikStr), entries[k].title, entries[k].ticker))
  }

  /** The lookup is case-insensitive in the symbol only: `aapl` finds the
      entry listed as `AAPL`, whose CIK is padded to ten digits. */
  lemma TickerExample()
    ensures Ticker("aapl", Body([TickerEntry("320193", "Apple Inc.", "AAPL")])) ==
      Ok200(TickerInfo("0000320193", "Apple Inc.", "AAPL"))
  {
    assert ToUpperAscii("aapl") == "AAPL";
    assert PadCik("320193") == "0000320193";
  }
}
