/**
 * `SECDownloader`: which EDGAR filings are picked, how they are filtered by year,
 * and where they are fetched from and saved to. The HTTP requests, the file system
 * and the rate-limit sleeps are inputs (`Edgar`).
 */
module SecDownloader {
  import opened Wrappers
  import opened PyStr
  import opened PyDict
  import DocumentProcessor

  /** The tickers this downloader knows, with their CIKs. */
  const CompanyCiks: Dict<string, string> := [("GOOGL", "1652044"), ("MSFT", "789019"), ("NVDA", "1045810")]

  const BaseUrl := "https://www.sec.gov"
  const EdgarUrl := BaseUrl + "/Archives/edgar/data"

  /** The filing years `get_company_filings` keeps. */
  const TargetYears: seq<string> := ["2022", "2023", "2024"]

  /**
   * The arrays of `filings.recent` in the submissions payload; a missing key
   * reads as the empty list, as `.get(key, [])` does.
   */
  datatype Recent = Recent(
    forms: seq<string>,
    accessionNumbers: seq<string>,
    filingDates: seq<string>,
    reportDates: seq<string>,
    primaryDocuments: seq<string>,
    primaryDocDescriptions: seq<string>)

  /** The submissions payload: `recent` is absent when "filings" or "filings.recent" is. */
  datatype Submissions = Submissions(recent: Option<Recent>)

  /** The network and the disk, as the downloader sees them. */
  datatype Edgar = Edgar(
    downloadDir: string,
    submissions: string -> Result<Submissions, string>,  // GET of a submissions URL, JSON decoded, or the exception
    pathExists: string -> bool,                              // local_path.exists()
    fetch: string -> bool)                                // GET of a filing URL and the write both succeed

  /** The five keys of a filing dict that are never reassigned. */
  datatype FilingInfo = FilingInfo(
    accessionNumber: string,
    filingDate: string,
    reportDate: string,
    primaryDocument: string,
    primaryDocDescription: string)

  /** A filing dict as `get_company_filings` builds it. */
  datatype Selection = Selection(info: FilingInfo, targetYear: string)

  /** A filing dict; `filter_filings_by_year` rewrites its "targetYear" in place. */
  class Filing {
    const accessionNumber: string
    const filingDate: string
    const reportDate: string
    const primaryDocument: string
    const primaryDocDescription: string
    var targetYear: string

    constructor (info: FilingInfo, targetYear: string)
      ensures Info() == info && this.targetYear == targetYear
    {
      accessionNumber := info.accessionNumber;
      filingDate := info.filingDate;
      reportDate := info.reportDate;
      primaryDocument := info.primaryDocument;
      primaryDocDescription := info.primaryDocDescription;
      this.targetYear := targetYear;
    }

    function Info(): FilingInfo {
      FilingInfo(accessionNumber, filingDate, reportDate, primaryDocument, primaryDocDescription)
    }
  }

  // ---------------------------------------------------------------
  // get_company_filings
  // ---------------------------------------------------------------

  /** The submissions URL of a CIK, zero-padded to ten digits. */
  function SubmissionsUrl(cik: string): (url: string)
    ensures StartsWith(url, "https://data.sec.gov/submissions/CIK") && EndsWith(url, ".json")
    ensures |url| == 36 + (if |cik| >= 10 then |cik| else 10) + 5
    ensures url[36..|url| - 5] == ZFill(cik, 10)
  {
    var head, padded := "https://data.sec.gov/submissions/CIK", ZFill(cik, 10);
    ConcatSlices(head, padded, ".json", "");
    head + padded + ".json"
  }

  /** The year of a filing: of the filing date if there is one, else of the report date. */
  function FilingYear(filingDate: string, reportDate: string): string {
    if filingDate != "" then Prefix(filingDate, 4) else if reportDate != "" then Prefix(reportDate, 4) else ""
  }

  /** The filing dict built for index `i`, with the defaults for arrays that are too short. */
  function SelectionAt(rec: Recent, formType: string, i: nat): (s: Selection)
    requires i < |rec.accessionNumbers|
    ensures s.info.accessionNumber == rec.accessionNumbers[i]
    ensures i >= |rec.filingDates| ==> s.info.filingDate == ""
    ensures i >= |rec.reportDates| ==> s.info.reportDate == s.info.filingDate
    ensures i >= |rec.primaryDocuments| ==> s.info.primaryDocument == ""
    ensures i >= |rec.primaryDocDescriptions| ==> s.info.primaryDocDescription == formType + " filing"
    ensures s.targetYear == FilingYear(s.info.filingDate, s.info.reportDate)
  {
    var filingDate := if i < |rec.filingDates| then rec.filingDates[i] else "";
    var reportDate := if i < |rec.reportDates| then rec.reportDates[i] else filingDate;
    var primaryDoc := if i < |rec.primaryDocuments| then rec.primaryDocuments[i] else "";
    var description := if i < |rec.primaryDocDescriptions| then rec.primaryDocDescriptions[i] else formType + " filing";
    Selection(FilingInfo(rec.accessionNumbers[i], filingDate, reportDate, primaryDoc, description),
              FilingYear(filingDate, reportDate))
  }

  /** Is index `i` picked: the wanted form, an accession number, and a year in 2022-2024? */
  predicate Picks(rec: Recent, formType: string, i: nat) {
    && i < |rec.forms|
    && rec.forms[i] == formType
    && i < |rec.accessionNumbers|
    && SelectionAt(rec, formType, i).targetYear in TargetYears
  }

  /** The filings picked among the first `n` indices, in index order. */
  function SelectUpTo(rec: Recent, formType: string, n: nat): (r: seq<Selection>)
    requires n <= |rec.forms|
    ensures |r| <= n
    ensures forall s :: s in r ==> s.targetYear in TargetYears
  {
    if n == 0 then []
    else SelectUpTo(rec, formType, n - 1)
         + (if Picks(rec, formType, n - 1) then [SelectionAt(rec, formType, n - 1)] else [])
  }

  /** What `get_company_filings` returns; a failed request or payload gives `[]`. */
  function CompanyFilings(env: Edgar, cik: string, formType: string): (r: seq<Selection>)
    ensures env.submissions(SubmissionsUrl(cik)).Err? ==> r == []
    ensures forall s :: s in r ==> s.targetYear in TargetYears
  {
    match env.submissions(SubmissionsUrl(cik))
    case Err(_) => []
    case Ok(data) =>
      if data.recent.None? then [] else SelectUpTo(data.recent.value, formType, |data.recent.value.forms|)
  }

  function Selections(fs: seq<Filing>): (r: seq<Selection>)
    reads set f | f in fs
    ensures |r| == |fs|
  {
    seq(|fs|, i reads set f | f in fs requires 0 <= i < |fs| => Selection(fs[i].Info(), fs[i].targetYear))
  }

  /** `get_company_filings(cik, form_type)`: new filing dicts, one per picked index. */
  method GetCompanyFilings(env: Edgar, cik: string, formType: string) returns (filingList: seq<Filing>)
    ensures forall f :: f in filingList ==> fresh(f)
    ensures Selections(filingList) == CompanyFilings(env, cik, formType)
  {
    filingList := [];
    var response := env.submissions(SubmissionsUrl(cik));
    if response.Err? || response.value.recent.None? {
      return;
    }
    var rec := response.value.recent.value;
    var i := 0;
    while i < |rec.forms|
      invariant 0 <= i <= |rec.forms|
      invariant forall f :: f in filingList ==> fresh(f)
      invariant Selections(filingList) == SelectUpTo(rec, formType, i)
    {
      SelectUpToStep(rec, formType, i);
      if rec.forms[i] == formType && i < |rec.accessionNumbers| {
        var filingDate := if i < |rec.filingDates| then rec.filingDates[i] else "";
        var reportDate := if i < |rec.reportDates| then rec.reportDates[i] else filingDate;
        var primaryDoc := if i < |rec.primaryDocuments| then rec.primaryDocuments[i] else "";
        var description := if i < |rec.primaryDocDescriptions| then rec.primaryDocDescriptions[i] else formType + " filing";
        var year := if filingDate != "" then Prefix(filingDate, 4) else if reportDate != "" then Prefix(reportDate, 4) else "";
        var info := FilingInfo(rec.accessionNumbers[i], filingDate, reportDate, primaryDoc, description);
        assert SelectionAt(rec, formType, i) == Selection(info, year);
        if year in TargetYears {
          var f := new Filing(info, year);
          SelectionsAppend(filingList, f);
          filingList := filingList + [f];
        }
      }
      i := i + 1;
    }
  }

  lemma SelectUpToStep(rec: Recent, formType: string, i: nat)
    requires i < |rec.forms|
    ensures SelectUpTo(rec, formType, i + 1) ==
      SelectUpTo(rec, formType, i) + (if Picks(rec, formType, i) then [SelectionAt(rec, formType, i)] else [])
  {
  }

  lemma SelectionsAppend(fs: seq<Filing>, f: Filing)
    ensures Selections(fs + [f]) == Selections(fs) + [Selection(f.Info(), f.targetYear)]
  {
    var a, b := Selections(fs), Selections(fs + [f]);
    assert forall i :: 0 <= i < |fs| ==> b[i] == a[i];
  }

  /**
   * A filing is returned exactly when its index is picked; those have a year in
   * 2022-2024 (their order is `SelectUpToInOrder`).
   */
  lemma {:induction false} SelectUpToPicked(rec: Recent, formType: string, n: nat)
    requires n <= |rec.forms|
    ensures forall s :: s in SelectUpTo(rec, formType, n) <==>
              exists i :: 0 <= i < n && Picks(rec, formType, i) && s == SelectionAt(rec, formType, i)
    ensures forall s :: s in SelectUpTo(rec, formType, n) ==> s.targetYear in TargetYears
  {
    if n > 0 {
      SelectUpToPicked(rec, formType, n - 1);
    }
  }

  /** The indices picked among the first `n`, in increasing order. */
  function PickedIndices(rec: Recent, formType: string, n: nat): (r: seq<nat>)
    ensures |r| <= n
  {
    if n == 0 then []
    else PickedIndices(rec, formType, n - 1) + (if Picks(rec, formType, n - 1) then [n - 1] else [])
  }

  /** Every index in `r` is below `n` and picked. */
  predicate OnlyPicked(rec: Recent, formType: string, r: seq<nat>, n: nat) {
    forall j :: 0 <= j < |r| ==> r[j] < n && Picks(rec, formType, r[j])
  }

  /** Every picked index below `n` is in `r`. */
  predicate AllPicked(rec: Recent, formType: string, r: seq<nat>, n: nat) {
    forall i :: 0 <= i < n && Picks(rec, formType, i) ==> i in r
  }

  predicate Increasing(r: seq<nat>) {
    forall j, l :: 0 <= j < l < |r| ==> r[j] < r[l]
  }

  /** `PickedIndices` lists exactly the picked indices below `n`, each once, in increasing order. */
  lemma {:induction false} PickedIndicesExact(rec: Recent, formType: string, n: nat)
    ensures OnlyPicked(rec, formType, PickedIndices(rec, formType, n), n)
    ensures AllPicked(rec, formType, PickedIndices(rec, formType, n), n)
    ensures Increasing(PickedIndices(rec, formType, n))
  {
    if n > 0 {
      PickedIndicesExact(rec, formType, n - 1);
      var prev := PickedIndices(rec, formType, n - 1);
      if Picks(rec, formType, n - 1) {
        assert PickedIndices(rec, formType, n) == prev + [n - 1];
        PickedAppend(rec, formType, prev, n - 1);
      } else {
        assert PickedIndices(rec, formType, n) == prev;
        PickedSkip(rec, formType, prev, n - 1);
      }
    }
  }

  lemma PickedAppend(rec: Recent, formType: string, prev: seq<nat>, m: nat)
    requires OnlyPicked(rec, formType, prev, m) && AllPicked(rec, formType, prev, m) && Increasing(prev)
    requires Picks(rec, formType, m)
    ensures OnlyPicked(rec, formType, prev + [m], m + 1) && AllPicked(rec, formType, prev + [m], m + 1)
    ensures Increasing(prev + [m])
  {
  }

  lemma PickedSkip(rec: Recent, formType: string, prev: seq<nat>, m: nat)
    requires OnlyPicked(rec, formType, prev, m) && AllPicked(rec, formType, prev, m)
    requires !Picks(rec, formType, m)
    ensures OnlyPicked(rec, formType, prev, m + 1) && AllPicked(rec, formType, prev, m + 1)
  {
  }

  /** The j-th selection is the one at the j-th index. */
  predicate SelectedAt(rec: Recent, formType: string, ss: seq<Selection>, idx: seq<nat>) {
    && |ss| == |idx|
    && forall j :: 0 <= j < |ss| ==> idx[j] < |rec.accessionNumbers| && ss[j] == SelectionAt(rec, formType, idx[j])
  }

  lemma SelectedAtAppend(rec: Recent, formType: string, ss: seq<Selection>, idx: seq<nat>, i: nat)
    requires SelectedAt(rec, formType, ss, idx) && i < |rec.accessionNumbers|
    ensures SelectedAt(rec, formType, ss + [SelectionAt(rec, formType, i)], idx + [i])
  {
  }

  /** The j-th returned filing is the one at the j-th picked index: index order is kept. */
  lemma {:induction false} SelectUpToInOrder(rec: Recent, formType: string, n: nat)
    requires n <= |rec.forms|
    ensures SelectedAt(rec, formType, SelectUpTo(rec, formType, n), PickedIndices(rec, formType, n))
  {
    if n > 0 {
      SelectUpToInOrder(rec, formType, n - 1);
      var s0, p0 := SelectUpTo(rec, formType, n - 1), PickedIndices(rec, formType, n - 1);
      if Picks(rec, formType, n - 1) {
        assert SelectUpTo(rec, formType, n) == s0 + [SelectionAt(rec, formType, n - 1)];
        assert PickedIndices(rec, formType, n) == p0 + [n - 1];
        SelectedAtAppend(rec, formType, s0, p0, n - 1);
      } else {
        assert SelectUpTo(rec, formType, n) == s0;
        assert PickedIndices(rec, formType, n) == p0;
      }
    }
  }

  /** A filing form other than the wanted one is never returned. */
  lemma SelectUpToForm(rec: Recent, formType: string, n: nat, s: Selection)
    requires n <= |rec.forms| && s in SelectUpTo(rec, formType, n)
    ensures exists i :: 0 <= i < n && rec.forms[i] == formType && i < |rec.accessionNumbers|
                        && s.info.accessionNumber == rec.accessionNumbers[i]
  {
    SelectUpToPicked(rec, formType, n);
  }

  // ---------------------------------------------------------------
  // filter_filings_by_year
  // ---------------------------------------------------------------

  /** `filing["reportDate"][:4]`, defaulting to the filing year when the report date is empty. */
  function ReportYear(info: FilingInfo): string {
    if info.reportDate != "" then Prefix(info.reportDate, 4) else Prefix(info.filingDate, 4)
  }

  predicate Keeps(info: FilingInfo, years: seq<string>) {
    Prefix(info.filingDate, 4) in years || ReportYear(info) in years
  }

  /** The filings that pass the year test, in order. */
  function Kept(fs: seq<Filing>, years: seq<string>): (r: seq<Filing>)
    ensures forall f :: f in r ==> f in fs && Keeps(f.Info(), years)
    ensures |r| <= |fs|
  {
    if |fs| == 0 then []
    else Kept(fs[..|fs| - 1], years) + (if Keeps(fs[|fs| - 1].Info(), years) then [fs[|fs| - 1]] else [])
  }

  lemma KeptStep(fs: seq<Filing>, years: seq<string>, i: nat)
    requires i < |fs|
    ensures Kept(fs[..i + 1], years) == Kept(fs[..i], years) + (if Keeps(fs[i].Info(), years) then [fs[i]] else [])
  {
    assert fs[..i + 1][..i] == fs[..i];
  }

  /**
   * `filter_filings_by_year(filings, years)`: every kept filing's "targetYear" is
   * set to its report year, the others are untouched, and the first len(years)
   * kept ones are returned.
   */
  method FilterFilingsByYear(filings: seq<Filing>, years: seq<string>) returns (r: seq<Filing>)
    modifies set f | f in filings
    ensures forall f :: f in filings ==>
              f.targetYear == if Keeps(f.Info(), years) then ReportYear(f.Info()) else old(f.targetYear)
    ensures r == Take(Kept(filings, years), |years|)
  {
    var filtered: seq<Filing> := [];
    var i := 0;
    while i < |filings|
      invariant 0 <= i <= |filings|
      invariant filtered == Kept(filings[..i], years)
      invariant forall f :: f in filings[..i] && Keeps(f.Info(), years) ==> f.targetYear == ReportYear(f.Info())
      invariant forall f :: f in filings && !Keeps(f.Info(), years) ==> f.targetYear == old(f.targetYear)
    {
      KeptStep(filings, years, i);
      PrefixStep(filings, i);
      var filing := filings[i];
      var keep := RetargetFiling(filing, years);
      if keep {
        filtered := filtered + [filing];
      }
      i := i + 1;
    }
    assert filings[..|filings|] == filings;
    r := Take(filtered, |years|);
  }

  /** The body of the year loop: a filing that passes gets its report year as "targetYear". */
  method RetargetFiling(filing: Filing, years: seq<string>) returns (keep: bool)
    modifies filing
    ensures keep == Keeps(filing.Info(), years)
    ensures filing.targetYear == if keep then ReportYear(filing.Info()) else old(filing.targetYear)
  {
    var filingYear := Prefix(filing.filingDate, 4);
    var reportYear := if filing.reportDate != "" then Prefix(filing.reportDate, 4) else filingYear;
    keep := filingYear in years || reportYear in years;
    if keep {
      filing.targetYear := reportYear;
    }
  }

  /** At most len(years) filings come back, each one that passed the year test. */
  lemma FilterBounded(filings: seq<Filing>, years: seq<string>)
    ensures |Take(Kept(filings, years), |years|)| <= |years|
    ensures |Take(Kept(filings, years), |years|)| <= |filings|
    ensures forall f :: f in Take(Kept(filings, years), |years|) ==> f in filings && Keeps(f.Info(), years)
  {
    var k := Kept(filings, years);
    forall f | f in Take(k, |years|) ensures f in k {
      var j :| 0 <= j < |Take(k, |years|)| && Take(k, |years|)[j] == f;
      assert k[j] == f;
    }
  }

  /** Every filing that passes the year test is kept. */
  lemma {:induction false} KeptComplete(fs: seq<Filing>, years: seq<string>, f: Filing)
    requires f in fs && Keeps(f.Info(), years)
    ensures f in Kept(fs, years)
  {
    var init, last := fs[..|fs| - 1], fs[|fs| - 1];
    SplitLast(fs);
    if f != last {
      assert f in init;
      KeptComplete(init, years, f);
    }
  }

  /** The year filter keeps the order of the input. */
  lemma {:induction false} KeptInOrder(fs: seq<Filing>, years: seq<string>)
    ensures IsSubsequence(Kept(fs, years), fs)
  {
    if |fs| > 0 {
      var init, last := fs[..|fs| - 1], fs[|fs| - 1];
      KeptInOrder(init, years);
      var k := Kept(init, years);
      SplitLast(fs);
      if Keeps(last.Info(), years) {
        assert Kept(fs, years) == k + [last];
        SubsequenceAppendBoth(k, init, last);
      } else {
        assert Kept(fs, years) == k;
        SubsequenceExtend(k, init, last);
      }
    }
  }

  // ---------------------------------------------------------------
  // download_filing
  // ---------------------------------------------------------------

  /** `f"{EDGAR_URL}/{cik}/{acc_no_clean}/{filename}"` with every '-' removed from the accession number. */
  function FilingUrl(cik: string, accessionNumber: string, filename: string): (url: string)
    ensures StartsWith(url, EdgarUrl + "/" + cik + "/")
    ensures |url| == |EdgarUrl + "/" + cik + "/"| + |RemoveChar(accessionNumber, '-')| + 1 + |filename|
    ensures var clean := url[|EdgarUrl + "/" + cik + "/"|..|url| - |filename| - 1];
            && clean == RemoveChar(accessionNumber, '-')
            && '-' !in clean && (forall c :: c != '-' ==> (c in clean <==> c in accessionNumber))
            && multiset(clean) == multiset(accessionNumber)['-' := 0]
            && url == EdgarUrl + "/" + cik + "/" + clean + "/" + filename
  {
    var head := EdgarUrl + "/" + cik + "/";
    var clean := RemoveChar(accessionNumber, '-');
    var url := head + clean + "/" + filename;
    ConcatSlices(head, clean, "/", filename);
    url
  }

  /** `f"{company}_{year}_{filename}"` */
  function LocalFilename(company: string, year: string, filename: string): string {
    company + "_" + year + "_" + filename
  }

  /** `str(download_dir / company / local_filename)` */
  function LocalPath(downloadDir: string, company: string, year: string, filename: string): string {
    downloadDir + "/" + company + "/" + LocalFilename(company, year, filename)
  }

  /** `download_filing`: the local path if the file exists or the download succeeds, else None. */
  function DownloadFiling(env: Edgar, cik: string, accessionNumber: string, filename: string,
                          company: string, year: string): (r: Option<string>)
    ensures r.Some? ==> r.value == LocalPath(env.downloadDir, company, year, filename)
    ensures r.None? <==> !env.pathExists(LocalPath(env.downloadDir, company, year, filename))
                         && !env.fetch(FilingUrl(cik, accessionNumber, filename))
  {
    var localPath := LocalPath(env.downloadDir, company, year, filename);
    if env.pathExists(localPath) then Some(localPath)
    else if env.fetch(FilingUrl(cik, accessionNumber, filename)) then Some(localPath)
    else None
  }

  /**
   * The saved name reads back, through `extract_metadata_from_filename`, as the
   * company and year it was saved under (when neither holds '_' or '/', and the
   * filename holds no '/').
   */
  lemma LocalPathRoundTrip(downloadDir: string, company: string, year: string, filename: string)
    requires '_' !in company && '_' !in year
    requires '/' !in company && '/' !in year && '/' !in filename
    ensures var m := DocumentProcessor.ExtractMetadataFromFilename(LocalPath(downloadDir, company, year, filename));
            m.company == company && m.year == year && m.filingType == "10-K"
  {
    var name := LocalFilename(company, year, filename);
    assert name == company + ['_'] + (year + ['_'] + filename);
    assert '/' !in name;
    assert name != "" && name != ".";
    assert LocalPath(downloadDir, company, year, filename) == (downloadDir + "/" + company) + "/" + name;
    DocumentProcessor.PathNameOfJoin(downloadDir + "/" + company, name);
    SplitOnFirst(company, '_', year + ['_'] + filename);
    SplitOnFirst(year, '_', filename);
  }

  // ---------------------------------------------------------------
  // download_company_filings / download_all_filings
  // ---------------------------------------------------------------

  /** `download_filing` of one target filing, saved under its report year. */
  function TargetDownload(env: Edgar, cik: string, company: string, t: FilingInfo): Option<string> {
    DownloadFiling(env, cik, t.accessionNumber, t.primaryDocument, company, ReportYear(t))
  }

  /** Target `t` was downloaded to the truthy path `p`. */
  predicate Downloaded(env: Edgar, cik: string, company: string, t: FilingInfo, p: string) {
    TargetDownload(env, cik, company, t) == Some(p) && p != ""
  }

  /** The local path every target would be saved at, in filing order. */
  function TargetPaths(downloadDir: string, company: string, targets: seq<FilingInfo>): (r: seq<string>)
    ensures |r| == |targets|
  {
    if |targets| == 0 then []
    else
      var t := targets[|targets| - 1];
      TargetPaths(downloadDir, company, targets[..|targets| - 1]) + [LocalPath(downloadDir, company, ReportYear(t), t.primaryDocument)]
  }

  /** The paths of the downloads that succeed, in filing order; each is saved under its report year. */
  function Downloads(env: Edgar, cik: string, company: string, targets: seq<FilingInfo>): (r: seq<string>)
    ensures |r| <= |targets|
  {
    if |targets| == 0 then []
    else
      var fp := TargetDownload(env, cik, company, targets[|targets| - 1]);
      Downloads(env, cik, company, targets[..|targets| - 1]) + (if fp.Some? && fp.value != "" then [fp.value] else [])
  }

  function Infos(ss: seq<Selection>): (r: seq<FilingInfo>)
    ensures |r| == |ss|
  {
    seq(|ss|, i requires 0 <= i < |ss| => ss[i].info)
  }

  /**
   * The year filter of `Kept`, over the filings' field values. `Kept` filters the
   * `Filing` objects, because `FilterFilingsByYear` retargets those very objects
   * in place and returns them. `CompanyDownloads` is a function and cannot read
   * the objects' mutable fields, so it filters their values with this one.
   * `KeptCommutes` proves the two agree.
   */
  function KeptInfos(infos: seq<FilingInfo>, years: seq<string>): seq<FilingInfo> {
    if |infos| == 0 then []
    else KeptInfos(infos[..|infos| - 1], years) + (if Keeps(infos[|infos| - 1], years) then [infos[|infos| - 1]] else [])
  }

  /** What `download_company_filings(company, years)` returns, or the ValueError it raises. */
  function CompanyDownloads(env: Edgar, company: string, years: seq<string>): (r: Result<seq<string>, string>)
    ensures r.Err? <==> Get(CompanyCiks, company).None?
    ensures r.Err? ==> r.error == "Unknown company: " + company
  {
    match Get(CompanyCiks, company)
    case None => Err("Unknown company: " + company)
    case Some(cik) =>
      var filings := CompanyFilings(env, cik, "10-K");
      if filings == [] then Ok([])
      else Ok(Downloads(env, cik, company, Take(KeptInfos(Infos(filings), years), |years|)))
  }

  function FilingInfos(fs: seq<Filing>): (r: seq<FilingInfo>)
    ensures |r| == |fs|
  {
    seq(|fs|, i requires 0 <= i < |fs| => fs[i].Info())
  }

  lemma {:induction false} KeptCommutes(fs: seq<Filing>, years: seq<string>)
    ensures FilingInfos(Kept(fs, years)) == KeptInfos(FilingInfos(fs), years)
  {
    if |fs| > 0 {
      KeptCommutes(fs[..|fs| - 1], years);
      InfosOfKeptStep(fs, years);
      KeptOfInfosStep(fs, years);
    }
  }

  lemma InfosOfKeptStep(fs: seq<Filing>, years: seq<string>)
    requires |fs| > 0
    ensures var last := fs[|fs| - 1];
      FilingInfos(Kept(fs, years))
      == FilingInfos(Kept(fs[..|fs| - 1], years)) + (if Keeps(last.Info(), years) then [last.Info()] else [])
  {
    var k, last := Kept(fs[..|fs| - 1], years), fs[|fs| - 1];
    if Keeps(last.Info(), years) {
      FilingInfosAppend(k, last);
    } else {
      assert Kept(fs, years) == k;
    }
  }

  lemma KeptOfInfosStep(fs: seq<Filing>, years: seq<string>)
    requires |fs| > 0
    ensures var last := fs[|fs| - 1];
      KeptInfos(FilingInfos(fs), years)
      == KeptInfos(FilingInfos(fs[..|fs| - 1]), years) + (if Keeps(last.Info(), years) then [last.Info()] else [])
  {
    var infos := FilingInfos(fs);
    assert infos[..|fs| - 1] == FilingInfos(fs[..|fs| - 1]);
    assert infos[|fs| - 1] == fs[|fs| - 1].Info();
  }

  lemma FilingInfosAppend(fs: seq<Filing>, f: Filing)
    ensures FilingInfos(fs + [f]) == FilingInfos(fs) + [f.Info()]
  {
  }

  lemma TakeInfos(fs: seq<Filing>, n: nat)
    ensures FilingInfos(Take(fs, n)) == Take(FilingInfos(fs), n)
  {
  }

  /** `download_company_filings` */
  method DownloadCompanyFilings(env: Edgar, company: string, years: seq<string>) returns (r: Result<seq<string>, string>)
    ensures r == CompanyDownloads(env, company, years)
  {
    var found := Get(CompanyCiks, company);
    if found.None? {
      return Err("Unknown company: " + company);
    }
    var cik := found.value;
    var filings := GetCompanyFilings(env, cik, "10-K");
    if filings == [] {
      return Ok([]);
    }
    assert Infos(Selections(filings)) == FilingInfos(filings);
    var targetFilings := FilterFilingsByYear(filings, years);
    KeptCommutes(filings, years);
    TakeInfos(Kept(filings, years), |years|);
    FilterBounded(filings, years);
    var downloadedFiles := DownloadTargets(env, cik, company, targetFilings);
    return Ok(downloadedFiles);
  }

  /** The download loop of `download_company_filings`, over filings whose target year is their report year. */
  method DownloadTargets(env: Edgar, cik: string, company: string, targetFilings: seq<Filing>)
    returns (downloadedFiles: seq<string>)
    requires forall f :: f in targetFilings ==> f.targetYear == ReportYear(f.Info())
    ensures downloadedFiles == Downloads(env, cik, company, FilingInfos(targetFilings))
  {
    ghost var targets := FilingInfos(targetFilings);
    downloadedFiles := [];
    var i := 0;
    while i < |targetFilings|
      invariant 0 <= i <= |targetFilings|
      invariant downloadedFiles == Downloads(env, cik, company, targets[..i])
    {
      var filing := targetFilings[i];
      assert targets[..i + 1][..i] == targets[..i];
      var filepath := DownloadFiling(env, cik, filing.accessionNumber, filing.primaryDocument, company, filing.targetYear);
      if filepath.Some? && filepath.value != "" {
        downloadedFiles := downloadedFiles + [filepath.value];
      }
      i := i + 1;
    }
    assert targets[..|targets|] == targets;
  }

  /** An unknown ticker raises; a known one returns at most len(years) paths, each named COMPANY_YEAR_file. */
  lemma CompanyDownloadsFacts(env: Edgar, company: string, years: seq<string>)
    ensures company !in Keys(CompanyCiks) <==> CompanyDownloads(env, company, years).Err?
    ensures CompanyDownloads(env, company, years).Ok? ==>
              && |CompanyDownloads(env, company, years).value| <= |years|
              && forall p :: p in CompanyDownloads(env, company, years).value ==>
                   exists y, f :: p == LocalPath(env.downloadDir, company, y, f)
  {
    match Get(CompanyCiks, company)
    case None =>
    case Some(cik) =>
      var filings := CompanyFilings(env, cik, "10-K");
      if filings != [] {
        var targets := Take(KeptInfos(Infos(filings), years), |years|);
        DownloadsFacts(env, cik, company, targets);
      }
  }

  /**
   * The paths returned are exactly the truthy results of the targets' downloads,
   * in filing order, each a local path of the company.
   */
  lemma {:induction false} DownloadsFacts(env: Edgar, cik: string, company: string, targets: seq<FilingInfo>)
    ensures |Downloads(env, cik, company, targets)| <= |targets|
    ensures forall p :: p in Downloads(env, cik, company, targets) ==>
              exists y, f :: p == LocalPath(env.downloadDir, company, y, f)
    ensures forall p :: p in Downloads(env, cik, company, targets) <==>
              exists i :: 0 <= i < |targets| && Downloaded(env, cik, company, targets[i], p)
    ensures IsSubsequence(Downloads(env, cik, company, targets), TargetPaths(env.downloadDir, company, targets))
  {
    DownloadsTruthy(env, cik, company, targets);
    TruthyMembers(Outcomes(env, cik, company, targets));
    if |targets| > 0 {
      var init := targets[..|targets| - 1];
      DownloadsFacts(env, cik, company, init);
      DownloadsOrderStep(env, cik, company, targets);
    }
  }

  /** The result of `download_filing` for each target, in filing order. */
  function Outcomes(env: Edgar, cik: string, company: string, targets: seq<FilingInfo>): (os: seq<Option<string>>)
    ensures |os| == |targets|
    ensures forall i :: 0 <= i < |targets| ==> os[i] == TargetDownload(env, cik, company, targets[i])
  {
    seq(|targets|, i requires 0 <= i < |targets| => TargetDownload(env, cik, company, targets[i]))
  }

  /** The truthy paths of a list of `download_filing` results, in order. */
  function Truthy(os: seq<Option<string>>): seq<string> {
    if |os| == 0 then []
    else
      var o := os[|os| - 1];
      Truthy(os[..|os| - 1]) + (if o.Some? && o.value != "" then [o.value] else [])
  }

  lemma {:induction false} TruthyMembers(os: seq<Option<string>>)
    ensures forall p :: p in Truthy(os) <==> exists i :: 0 <= i < |os| && os[i] == Some(p) && p != ""
  {
    if |os| > 0 {
      var init := os[..|os| - 1];
      TruthyMembers(init);
      forall p ensures p in Truthy(os) <==> exists i :: 0 <= i < |os| && os[i] == Some(p) && p != "" {
        if p in Truthy(init) {
          var i :| 0 <= i < |init| && init[i] == Some(p) && p != "";
          assert os[i] == init[i];
        }
        if exists i :: 0 <= i < |os| && os[i] == Some(p) && p != "" {
          var i :| 0 <= i < |os| && os[i] == Some(p) && p != "";
          if i < |init| {
            assert init[i] == os[i];
          }
        }
      }
    }
  }

  lemma {:induction false} DownloadsTruthy(env: Edgar, cik: string, company: string, targets: seq<FilingInfo>)
    ensures Downloads(env, cik, company, targets) == Truthy(Outcomes(env, cik, company, targets))
  {
    if |targets| > 0 {
      var init := targets[..|targets| - 1];
      DownloadsTruthy(env, cik, company, init);
      assert Outcomes(env, cik, company, targets)[..|targets| - 1] == Outcomes(env, cik, company, init);
    }
  }

  /** The order fact of `DownloadsFacts` carries over one more target. */
  lemma DownloadsOrderStep(env: Edgar, cik: string, company: string, targets: seq<FilingInfo>)
    requires |targets| > 0
    requires var init := targets[..|targets| - 1];
             IsSubsequence(Downloads(env, cik, company, init), TargetPaths(env.downloadDir, company, init))
    ensures IsSubsequence(Downloads(env, cik, company, targets), TargetPaths(env.downloadDir, company, targets))
  {
    var init, t := targets[..|targets| - 1], targets[|targets| - 1];
    var d, paths := Downloads(env, cik, company, init), TargetPaths(env.downloadDir, company, init);
    var fp := TargetDownload(env, cik, company, t);
    var local := LocalPath(env.downloadDir, company, ReportYear(t), t.primaryDocument);
    assert TargetPaths(env.downloadDir, company, targets) == paths + [local];
    if fp.Some? && fp.value != "" {
      assert Downloads(env, cik, company, targets) == d + [local];
      SubsequenceAppendBoth(d, paths, local);
    } else {
      assert Downloads(env, cik, company, targets) == d;
      SubsequenceExtend(d, paths, local);
    }
  }

  /** The files of one company as `download_all_filings` records them: `[]` when its download raised. */
  function CompanyFiles(env: Edgar, company: string, years: seq<string>): seq<string> {
    match CompanyDownloads(env, company, years)
    case Ok(fs) => fs
    case Err(_) => []
  }

  /** What `download_all_filings` returns. */
  function AllDownloads(env: Edgar, companies: seq<string>, years: seq<string>): (r: Dict<string, seq<string>>)
    ensures forall c :: c in Keys(r) <==> c in companies
  {
    CollectKeys(companies, c => CompanyFiles(env, c, years));
    Collect(companies, c => CompanyFiles(env, c, years))
  }

  /** `download_all_filings` */
  method DownloadAllFilings(env: Edgar, companies: seq<string>, years: seq<string>) returns (results: Dict<string, seq<string>>)
    ensures results == AllDownloads(env, companies, years)
  {
    results := [];
    var i := 0;
    while i < |companies|
      invariant 0 <= i <= |companies|
      invariant results == Collect(companies[..i], c => CompanyFiles(env, c, years))
    {
      assert companies[..i + 1][..i] == companies[..i];
      var company := companies[i];
      var files := DownloadCompanyFilings(env, company, years);
      if files.Ok? {
        results := Put(results, company, files.value);
      } else {
        results := Put(results, company, []);
      }
      i := i + 1;
    }
    assert companies[..|companies|] == companies;
  }

  /**
   * `download_all_filings` has one key per requested company, and a company whose
   * download raised (an unknown ticker) maps to `[]`.
   */
  lemma AllDownloadsKeys(env: Edgar, companies: seq<string>, years: seq<string>)
    ensures DistinctKeys(AllDownloads(env, companies, years))
    ensures forall c :: c in Keys(AllDownloads(env, companies, years)) <==> c in companies
    ensures forall c :: c in companies ==> Get(AllDownloads(env, companies, years), c) == Some(CompanyFiles(env, c, years))
    ensures forall c :: c in companies && c !in Keys(CompanyCiks) ==> Get(AllDownloads(env, companies, years), c) == Some([])
  {
    var files := c => CompanyFiles(env, c, years);
    CollectKeys(companies, files);
    forall c | c in companies
      ensures Get(AllDownloads(env, companies, years), c) == Some(CompanyFiles(env, c, years))
      ensures c !in Keys(CompanyCiks) ==> CompanyFiles(env, c, years) == []
    {
      CollectGet(companies, files, c);
      CompanyDownloadsFacts(env, c, years);
    }
  }
}
