/**
 * The scan state holder of the dashboard (`src/lib/scan-context.tsx`): the
 * provider keeps the last scan result and an in-flight flag, and a scan
 * asks the analysis API for a new result, replaces the held one when the
 * answer has nodes, and prepends an entry to the audit log kept in
 * `localStorage` under `cfip_audit_logs`.  The API, the clock and the
 * storage are given to the scan.
 */
module ScanContext {
  import opened Wrappers
  import opened Strings
  import opened JsonText
  import opened BrowserStorage

  /**
   * The analysis result, its lists kept as the JSON text of their members;
   * `nodes` is absent when the answer has no `nodes` or a `null` one.
   */
  datatype ScanData = ScanData(
    nodes: Option<seq<string>>, edges: seq<string>, risks: seq<string>,
    businessMappings: seq<string>, remediations: seq<string>)

  /** The body of the request. */
  datatype Request = Request(action: string, githubUrl: string, githubPat: string)

  /**
   * What the API call yields: `Failed` when the request rejects or the body
   * is not JSON; otherwise the parsed body, `None` when it is not an object.
   */
  datatype Reply = Failed | Received(data: Option<ScanData>)

  /** One audit-log entry. */
  datatype AuditEntry = AuditEntry(
    id: string, timestamp: string, action: string, user: string, role: string, details: string, entryType: string)

  const AuditKey := "cfip_audit_logs"

  /** The keys of a stored entry, in the order `JSON.stringify` writes them. */
  const AuditFields: seq<string> := ["id", "timestamp", "action", "user", "role", "details", "type"]

  function EntryValues(e: AuditEntry): (vs: seq<string>)
    ensures |vs| == |AuditFields|
  {
    [e.id, e.timestamp, e.action, e.user, e.role, e.details, e.entryType]
  }

  function EntryOf(vs: seq<string>): AuditEntry
    requires |vs| == |AuditFields|
  {
    AuditEntry(vs[0], vs[1], vs[2], vs[3], vs[4], vs[5], vs[6])
  }

  /** `JSON.stringify(entries)`. */
  function EncodeLog(entries: seq<AuditEntry>): string {
    Array(AuditFields, seq(|entries|, i requires 0 <= i < |entries| => EntryValues(entries[i])))
  }

  /**
   * The existing log a scan starts from: empty when nothing (or the empty
   * text) is stored, `None` when the stored text does not parse (the scan
   * then fails).
   */
  function StoredLog(items: map<string, string>): (r: Option<seq<AuditEntry>>)
    ensures r.None? ==> AuditKey in items && items[AuditKey] != "" && ParseArray(AuditFields, items[AuditKey]).None?
  {
    if AuditKey !in items || items[AuditKey] == "" then Some([])
    else match ParseArray(AuditFields, items[AuditKey])
      case None => None
      case Some(recs) => Some(seq(|recs|, i requires 0 <= i < |recs| => EntryOf(recs[i])))
  }

  /** A written log reads back unchanged. */
  lemma StoredLogRoundTrip(items: map<string, string>, entries: seq<AuditEntry>)
    ensures StoredLog(items[AuditKey := EncodeLog(entries)]) == Some(entries)
  {
    var recs := seq(|entries|, i requires 0 <= i < |entries| => EntryValues(entries[i]));
    ParseArrayRoundTrip(AuditFields, recs);
    assert EncodeLog(entries)[0] == '[';
    var back := seq(|recs|, i requires 0 <= i < |recs| => EntryOf(recs[i]));
    assert back == entries;
  }

  /** The request a scan sends. */
  function ScanRequest(githubUrl: string, githubPat: string): Request {
    Request("scan", githubUrl, githubPat)
  }

  /** `data && data.nodes`: an answer with a nodes list, even an empty one, is accepted. */
  predicate Accepted(reply: Reply) {
    reply.Received? && reply.data.Some? && reply.data.value.nodes.Some?
  }

  /** The entry a scan logs, given the clock's reading in milliseconds and as ISO text. */
  function ScanEntry(githubUrl: string, now: nat, timestamp: string): AuditEntry {
    AuditEntry("log-scan-" + NatToString(now), timestamp, "Live Repository Scan Initiated",
      "admin@cfip.io", "Admin", "Full analysis of " + (if githubUrl == "" then "local directory" else githubUrl), "scan")
  }

  /** The logged entry is a scan entry whose id carries the time and whose details name the repository. */
  lemma ScanEntryFacts(githubUrl: string, now: nat, timestamp: string)
    ensures StartsWith(ScanEntry(githubUrl, now, timestamp).id, "log-scan-")
    ensures ScanEntry(githubUrl, now, timestamp).entryType == "scan"
    ensures githubUrl != "" ==> EndsWith(ScanEntry(githubUrl, now, timestamp).details, githubUrl)
    ensures githubUrl == "" ==> ScanEntry(githubUrl, now, timestamp).details == "Full analysis of local directory"
    ensures ScanEntry(githubUrl, now, timestamp).timestamp == timestamp
  {
    var e := ScanEntry(githubUrl, now, timestamp);
    assert e.id[..9] == "log-scan-";
    var d := "Full analysis of " + githubUrl;
    assert d[|d| - |githubUrl|..] == githubUrl;
  }

  /** `ScanProvider`: the state it holds and the actions it offers. */
  class ScanProvider {
    var scanData: Option<ScanData>
    var isScanning: bool
    const storage: LocalStorage

    constructor(storage: LocalStorage)
      ensures scanData == None && !isScanning && this.storage == storage
    {
      scanData := None;
      isScanning := false;
      this.storage := storage;
    }

    /** `setScanData`. */
    method SetScanData(data: Option<ScanData>)
      modifies this
      ensures scanData == data && isScanning == old(isScanning)
    {
      scanData := data;
    }

    /** `setIsScanning`. */
    method SetIsScanning(scanning: bool)
      modifies this
      ensures isScanning == scanning && scanData == old(scanData)
    {
      isScanning := scanning;
    }

    /**
     * `runScan`: succeeds exactly when the answer has nodes and the stored
     * log parses; then the answer replaces the held data and the log gains
     * one entry in front.  A failed scan changes neither.  The flag is
     * raised for the duration of the call and lowered on every exit.
     */
    method RunScan(githubUrl: string, githubPat: string, api: Request -> Reply, now: nat, timestamp: string)
      returns (ok: bool)
      modifies this, storage
      ensures !isScanning
      ensures ok <==> Accepted(api(ScanRequest(githubUrl, githubPat))) && StoredLog(old(storage.items)).Some?
      ensures ok ==> scanData == api(ScanRequest(githubUrl, githubPat)).data
      ensures ok ==> storage.items == old(storage.items)[AuditKey :=
        EncodeLog([ScanEntry(githubUrl, now, timestamp)] + StoredLog(old(storage.items)).value)]
      ensures ok ==>
        StoredLog(storage.items) == Some([ScanEntry(githubUrl, now, timestamp)] + StoredLog(old(storage.items)).value)
      ensures !ok ==> scanData == old(scanData) && storage.items == old(storage.items)
    {
      isScanning := true;
      var reply := api(Request("scan", githubUrl, githubPat));
      if reply.Received? && reply.data.Some? && reply.data.value.nodes.Some? {
        var entry := ScanEntry(githubUrl, now, timestamp);
        var raw := storage.GetItem(AuditKey);
        var existing: seq<AuditEntry>;
        if raw.None? || raw.value == "" {
          existing := [];
        } else {
          var parsed := ParseArray(AuditFields, raw.value);
          if parsed.None? {
            isScanning := false;
            return false;
          }
          existing := seq(|parsed.value|, i requires 0 <= i < |parsed.value| => EntryOf(parsed.value[i]));
        }
        storage.SetItem(AuditKey, EncodeLog([entry] + existing));
        StoredLogRoundTrip(old(storage.items), [entry] + existing);
        scanData := reply.data;
        isScanning := false;
        return true;
      }
      isScanning := false;
      return false;
    }
  }

  /** `useScan`: the provider in scope, or the error thrown outside one. */
  function UseScan(context: Option<ScanProvider>): (r: Result<ScanProvider, string>)
    ensures r.Ok? <==> context.Some?
    ensures r.Ok? ==> r.value == context.value
    ensures r.Err? ==> r.error == "useScan must be used within a ScanProvider"
  {
    match context
    case None => Err("useScan must be used within a ScanProvider")
    case Some(c) => Ok(c)
  }
}
