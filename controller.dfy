/**
 * The device-registry endpoints of backend/src/controllers/clientController.js
 * over an in-memory store: the clients table, the append-only sequence of
 * metric samples and the append-only audit log.
 *
 * The request is already decrypted and parsed: a report that could not be
 * decrypted or parsed arrives as None. The current time `now` (milliseconds)
 * and, for the month window, the instant one calendar month earlier are
 * parameters. Metric figures are stored as received.
 *
 * The source never imports Sequelize's Op (backend/src/controllers/clientController.js
 * lines 1-5) but uses it for the search filter (lines 32-34) and the metrics
 * window (line 273), so as written both throw and answer 500. ListAsWritten
 * and MetricsAsWritten model that; the Backend methods model the intended
 * queries.
 */
module ClientController {
  import opened Wrappers
  import opened ClientModel
  import Uuid
  import Like
  import Query

  /** The figures of one report, stored as received. */
  datatype Figures = Figures(
    cpu_usage: real, memory_total: int, memory_used: int, memory_usage: real,
    disk_total: int, disk_used: int, disk_usage: real)

  /** The system_info section of a report; collected_at is the agent's clock. */
  datatype SystemInfo = SystemInfo(
    hostname: Option<string>, os: Option<string>, platform: Option<string>,
    figures: Figures, collected_at: int)

  /** A decrypted, parsed report; each field may be missing. */
  datatype Payload = Payload(client_id: Option<string>, custom_name: Option<string>, system_info: Option<SystemInfo>)

  /** One row of the metrics table. */
  datatype Sample = Sample(client_id: string, figures: Figures, collected_at: int)

  datatype Action = Update | Delete

  /** The details column of an audit entry: the new name, or the new active flag. */
  datatype Details = NameSet(custom_name: Option<string>) | ActiveSet(is_active: bool)

  datatype AuditEntry = AuditEntry(
    user_id: int, action: Action, entity_type: string, entity_id: string,
    details: Details, ip_address: string)

  /** The authenticated user and the origin address of a request. */
  datatype Requester = Requester(user_id: int, ip: string)

  /** The status of a reply: 200 with data, 400, 404, or 500. */
  datatype Response<T> = Ok(data: T) | BadRequest | NotFound | ServerError

  /** req.body.custom_name of a rename: undefined, or null or a string. */
  datatype NameField = Absent | Given(name: Option<string>)

  /** JavaScript truthiness of an optional string: present and not empty. */
  predicate Truthy(o: Option<string>) {
    o.Some? && o.value != ""
  }

  /** `x || null` on an optional string. */
  function OrNull(o: Option<string>): (r: Option<string>)
    ensures r.Some? <==> Truthy(o)
    ensures Truthy(o) ==> r == o
  {
    if Truthy(o) then o else None
  }

  /** The 400 check: a truthy client_id and a system_info section. */
  predicate WellFormed(p: Payload) {
    Truthy(p.client_id) && p.system_info.Some?
  }

  /**
   * The row created for a first report: active, seen first and last now, the
   * reported name or null, and the reported hostname, os and platform.
   */
  function NewRecord(id: string, customName: Option<string>, info: SystemInfo, now: int): (c: Client)
    ensures c.client_id == id && c.is_active
    ensures c.first_seen == c.last_seen == now
    ensures c.custom_name == OrNull(customName)
    ensures c.hostname == info.hostname && c.os == info.os && c.platform == info.platform
  {
    Client(id, OrNull(customName), info.hostname, info.os, info.platform, now, now, true)
  }

  /**
   * A stored row after a later report: the reported columns and last_seen
   * are overwritten; the reported name is adopted only when the stored one
   * is empty; client_id, first_seen and is_active are never touched.
   */
  function Refreshed(c: Client, customName: Option<string>, info: SystemInfo, now: int): (r: Client)
    ensures r.client_id == c.client_id && r.first_seen == c.first_seen && r.is_active == c.is_active
    ensures r.hostname == info.hostname && r.os == info.os && r.platform == info.platform
    ensures r.last_seen == now
    ensures Truthy(c.custom_name) ==> r.custom_name == c.custom_name
    ensures !Truthy(c.custom_name) ==> r.custom_name == if Truthy(customName) then customName else c.custom_name
  {
    var r := c.(hostname := info.hostname, os := info.os, platform := info.platform, last_seen := now);
    if Truthy(customName) && !Truthy(c.custom_name) then r.(custom_name := customName) else r
  }

  function SampleOf(id: string, info: SystemInfo): Sample {
    Sample(id, info.figures, info.collected_at)
  }

  /** One report as the stored row sees it: its name, its system_info and the time it arrived. */
  datatype Report = Report(custom_name: Option<string>, info: SystemInfo, now: int)

  /** A stored row after a series of reports for its client_id, oldest first. */
  function Replay(c: Client, rs: seq<Report>): Client
    decreases |rs|
  {
    if rs == [] then c else Replay(Refreshed(c, rs[0].custom_name, rs[0].info, rs[0].now), rs[1..])
  }

  /** The first non-empty name among the reports, if any. */
  function FirstName(rs: seq<Report>): (r: Option<string>)
    ensures r.Some? ==> Truthy(r)
  {
    if rs == [] then None else if Truthy(rs[0].custom_name) then rs[0].custom_name else FirstName(rs[1..])
  }

  /** No number of reports changes a row's identity, first_seen or active flag. */
  lemma {:induction false} ReplayKeepsIdentity(c: Client, rs: seq<Report>)
    ensures Replay(c, rs).client_id == c.client_id
    ensures Replay(c, rs).first_seen == c.first_seen
    ensures Replay(c, rs).is_active == c.is_active
    decreases |rs|
  {
    if rs != [] {
      ReplayKeepsIdentity(Refreshed(c, rs[0].custom_name, rs[0].info, rs[0].now), rs[1..]);
    }
  }

  /**
   * The display name is sticky: an empty stored name takes the first
   * non-empty reported name and then keeps it against all later reports.
   */
  lemma {:induction false} ReplayStickyName(c: Client, rs: seq<Report>)
    ensures Truthy(c.custom_name) ==> Replay(c, rs).custom_name == c.custom_name
    ensures !Truthy(c.custom_name) ==>
      Replay(c, rs).custom_name == if FirstName(rs).Some? then FirstName(rs) else c.custom_name
    decreases |rs|
  {
    if rs != [] {
      ReplayStickyName(Refreshed(c, rs[0].custom_name, rs[0].info, rs[0].now), rs[1..]);
    }
  }

  /** After a series of reports the reported columns and last_seen are those of the last one. */
  lemma {:induction false} ReplayLastReportWins(c: Client, rs: seq<Report>)
    requires rs != []
    ensures var last := rs[|rs| - 1];
      && Replay(c, rs).hostname == last.info.hostname
      && Replay(c, rs).os == last.info.os
      && Replay(c, rs).platform == last.info.platform
      && Replay(c, rs).last_seen == last.now
    decreases |rs|
  {
    var c' := Refreshed(c, rs[0].custom_name, rs[0].info, rs[0].now);
    if |rs| > 1 {
      ReplayLastReportWins(c', rs[1..]);
    }
  }

  /** The filter of the device list, stated on the query parameters. */
  predicate ListAccepts(status: Option<string>, os: Option<string>, search: Option<string>, c: Client) {
    && (status == Some("active") ==> c.is_active)
    && (status == Some("inactive") ==> !c.is_active)
    && (Truthy(os) ==> c.os == os)
    && (Truthy(search) ==> SearchHit(c, search.value))
  }

  const HOUR_MS: int := 3_600_000
  const DAY_MS: int := 24 * HOUR_MS

  /**
   * The start of the metrics window: an hour, a day, seven days or one
   * calendar month (monthAgo) before now; any other period means an hour.
   */
  function Cutoff(period: Option<string>, now: int, monthAgo: int): (start: int)
    ensures period == Some("day") ==> start == now - DAY_MS
    ensures period == Some("week") ==> start == now - 7 * DAY_MS
    ensures period == Some("month") ==> start == monthAgo
    ensures period !in {Some("day"), Some("week"), Some("month")} ==> start == now - HOUR_MS
  {
    match period
    case Some("day") => now - DAY_MS
    case Some("week") => now - 7 * DAY_MS
    case Some("month") => monthAgo
    case _ => now - HOUR_MS
  }

  function CollectedAt(s: Sample): int {
    s.collected_at
  }

  /** The WHERE clause of the metrics query: this client, collected at or after start. */
  function InWindow(id: string, start: int): Sample -> bool {
    (s: Sample) => s.client_id == id && s.collected_at >= start
  }

  /** SystemMetric.findAll for one client since start, ordered by collected_at ascending. */
  function MetricsWindow(samples: seq<Sample>, id: string, start: int): (r: seq<Sample>)
    ensures forall s :: multiset(r)[s] == if s.client_id == id && s.collected_at >= start then multiset(samples)[s] else 0
    ensures forall i, j :: 0 <= i < j < |r| ==> r[i].collected_at <= r[j].collected_at
  {
    var r := Query.SortBy(Query.Filter(samples, InWindow(id, start)), CollectedAt);
    assert forall i, j :: 0 <= i < j < |r| ==> CollectedAt(r[i]) <= CollectedAt(r[j]);
    r
  }

  /** The sample a findOne ordered by collected_at DESC returns: a latest one, the earliest stored among ties. */
  function LatestSample(samples: seq<Sample>, id: string): (r: Option<Sample>)
    ensures r.None? <==> forall s :: s in samples ==> s.client_id != id
    ensures r.Some? ==> r.value in samples && r.value.client_id == id
    ensures r.Some? ==> forall s :: s in samples && s.client_id == id ==> s.collected_at <= r.value.collected_at
  {
    if samples == [] then None
    else
      assert samples == [samples[0]] + samples[1..];
      var rest := LatestSample(samples[1..], id);
      if samples[0].client_id != id then rest
      else if rest.Some? && rest.value.collected_at > samples[0].collected_at then rest
      else Some(samples[0])
  }

  /** getAllClients as written: a truthy search evaluates Op.or with Op undefined, which throws. */
  function ListAsWritten(rows: seq<Client>, status: Option<string>, os: Option<string>, search: Option<string>): (res: Response<seq<Client>>)
    ensures res.ServerError? <==> Truthy(search)
    ensures !Truthy(search) ==> res.Ok?
    ensures res.Ok? ==> forall c :: multiset(res.data)[c] == if ListAccepts(status, os, search, c) then multiset(rows)[c] else 0
    ensures res.Ok? ==> forall i, j :: 0 <= i < j < |res.data| ==> res.data[i].last_seen >= res.data[j].last_seen
  {
    if Truthy(search) then ServerError
    else
      var active := if status == Some("active") then Some(true) else if status == Some("inactive") then Some(false) else None;
      Ok(FindAll(rows, Where(active, if Truthy(os) then os else None, None)))
  }

  /** getClientMetrics as written: building the window evaluates Op.gte with Op undefined, which throws. */
  function MetricsAsWritten(samples: seq<Sample>, id: string, period: Option<string>, now: int, monthAgo: int): (res: Response<seq<Sample>>)
    ensures res.ServerError?
  {
    ServerError
  }

  /** A search that the intended query answers with a matching device fails as written. */
  lemma SearchFailsAsWritten(c: Client)
    requires c.hostname == Some("pc1")
    ensures ListAsWritten([c], None, None, Some("pc")).ServerError?
    ensures multiset(FindAll([c], Where(None, None, Some("pc"))))[c] == 1
  {
    assert Like.Contains(Like.LowerStr("pc1"), Like.LowerStr("pc")) by {
      assert Like.LowerStr("pc1") == "pc1" && Like.LowerStr("pc") == "pc";
      assert Like.OccursAt("pc1", "pc", 0);
    }
    SearchIsSubstring(c, "pc");
  }

  /** A sample inside the requested window is returned by the intended query but never as written. */
  lemma MetricsFailAsWritten(s: Sample, now: int, monthAgo: int)
    requires s.collected_at == now
    ensures MetricsAsWritten([s], s.client_id, None, now, monthAgo).ServerError?
    ensures MetricsWindow([s], s.client_id, Cutoff(None, now, monthAgo)) == [s]
  {
    var p := InWindow(s.client_id, Cutoff(None, now, monthAgo));
    assert [s][1..] == [];
    assert Query.Filter([s], p) == [s];
    assert Query.SortBy([s], CollectedAt) == [s];
  }

  /**
   * With period=week, of samples taken ten days, three days and an
   * hour before now, the week window returns the last two, oldest first.
   */
  lemma WeekWindowExample(id: string, f: Figures, now: int, monthAgo: int)
    ensures var tenDays := Sample(id, f, now - 10 * DAY_MS);
      var threeDays := Sample(id, f, now - 3 * DAY_MS);
      var anHour := Sample(id, f, now - HOUR_MS);
      MetricsWindow([tenDays, threeDays, anHour], id, Cutoff(Some("week"), now, monthAgo)) == [threeDays, anHour]
  {
    assert Cutoff(Some("week"), now, monthAgo) == now - 7 * DAY_MS;
    WindowDropsOldest(Sample(id, f, now - 10 * DAY_MS), Sample(id, f, now - 3 * DAY_MS),
                      Sample(id, f, now - HOUR_MS), now - 7 * DAY_MS);
  }

  /** Three samples of one client, the first before the window's start and the others inside it. */
  lemma WindowDropsOldest(early: Sample, mid: Sample, late: Sample, start: int)
    requires early.client_id == mid.client_id == late.client_id
    requires early.collected_at < start <= mid.collected_at < late.collected_at
    ensures MetricsWindow([early, mid, late], mid.client_id, start) == [mid, late]
  {
    var p := InWindow(mid.client_id, start);
    assert [early, mid, late][1..] == [mid, late] && [mid, late][1..] == [late] && [late][1..] == [];
    assert Query.Filter([late], p) == [late];
    assert Query.Filter([mid, late], p) == [mid, late];
    assert Query.Filter([early, mid, late], p) == [mid, late];
    assert Query.SortBy([late], CollectedAt) == [late];
    assert Query.SortBy([mid, late], CollectedAt) == [mid, late];
  }

  /** The registry: the clients table, the metric samples and the audit log. */
  class Backend {
    const table: ClientTable
    var samples: seq<Sample>
    var audit: seq<AuditEntry>

    /** The table invariant, and every sample belongs to a stored client. */
    ghost predicate Valid()
      reads this, table
    {
      && table.Valid()
      && forall i :: 0 <= i < |samples| ==> samples[i].client_id in Ids(table.rows)
    }

    constructor ()
      ensures Valid() && fresh(table)
      ensures table.rows == [] && samples == [] && audit == []
    {
      table := new ClientTable();
      samples := [];
      audit := [];
    }

    /**
     * receiveClientData: validate the report, create or refresh the client,
     * then append one sample. Failures change nothing; the audit log is never
     * written.
     */
    method ReceiveClientData(report: Option<Payload>, now: int) returns (res: Response<()>)
      requires Valid()
      modifies this, table
      ensures Valid()
      ensures audit == old(audit)
      ensures !res.NotFound?
      ensures res.BadRequest? <==> report.Some? && !WellFormed(report.value)
      ensures res.ServerError? <==>
        report.None? ||
        (WellFormed(report.value) && report.value.client_id.value !in Ids(old(table.rows))
         && !Uuid.IsUuidV4(report.value.client_id.value))
      ensures !res.Ok? ==> table.rows == old(table.rows) && samples == old(samples)
      ensures res.Ok? ==> report.Some? && WellFormed(report.value)
      ensures res.Ok? ==> Ids(table.rows) == Ids(old(table.rows)) + {report.value.client_id.value}
      ensures res.Ok? ==>
        var p := report.value;
        var id := p.client_id.value;
        var info := p.system_info.value;
        && samples == old(samples) + [SampleOf(id, info)]
        && table.rows == match FindByClientId(old(table.rows), id)
             case None => old(table.rows) + [NewRecord(id, p.custom_name, info, now)]
             case Some(c) => Replaced(old(table.rows), Refreshed(c, p.custom_name, info, now))
    {
      if report.None? {
        return ServerError;
      }
      var clientData := report.value;
      if !Truthy(clientData.client_id) || clientData.system_info.None? {
        return BadRequest;
      }
      var id := clientData.client_id.value;
      var info := clientData.system_info.value;
      var found := FindByClientId(table.rows, id);
      if found.None? {
        var created := table.Create(NewRecord(id, clientData.custom_name, info, now));
        if !created {
          return ServerError;
        }
      } else {
        var client := found.value;
        client := client.(hostname := info.hostname);
        client := client.(os := info.os);
        client := client.(platform := info.platform);
        client := client.(last_seen := now);
        if Truthy(clientData.custom_name) && !Truthy(client.custom_name) {
          client := client.(custom_name := clientData.custom_name);
        }
        table.Save(client);
      }
      samples := samples + [SampleOf(id, info)];
      res := Ok(());
    }

    /** updateClient: rename a stored client and audit it; an absent name changes and audits nothing. */
    method UpdateClient(id: string, body: NameField, who: Requester) returns (res: Response<Client>)
      requires Valid()
      modifies this, table
      ensures Valid()
      ensures samples == old(samples) && Ids(table.rows) == Ids(old(table.rows))
      ensures res.Ok? || res.NotFound?
      ensures res.NotFound? <==> id !in Ids(old(table.rows))
      ensures res.NotFound? ==> table.rows == old(table.rows) && audit == old(audit)
      ensures res.Ok? ==> FindByClientId(table.rows, id) == Some(res.data)
      ensures res.Ok? ==>
        var c := FindByClientId(old(table.rows), id).value;
        match body
        case Absent => res.data == c && table.rows == old(table.rows) && audit == old(audit)
        case Given(n) =>
          && res.data == c.(custom_name := n)
          && table.rows == Replaced(old(table.rows), res.data)
          && audit == old(audit) + [AuditEntry(who.user_id, Update, "CLIENT", id, NameSet(n), who.ip)]
    {
      var found := FindByClientId(table.rows, id);
      if found.None? {
        return NotFound;
      }
      var client := found.value;
      if body.Given? {
        client := table.Rename(client, body.name);
        SaveWritesOneRow(old(table.rows), client);
        assert FindByClientId(table.rows, id) == Some(client);
        audit := audit + [AuditEntry(who.user_id, Update, "CLIENT", id, NameSet(body.name), who.ip)];
      }
      res := Ok(client);
    }

    /** deleteClient: soft delete; the row and its samples stay, one DELETE entry is audited. */
    method DeleteClient(id: string, who: Requester) returns (res: Response<()>)
      requires Valid()
      modifies this, table
      ensures Valid()
      ensures samples == old(samples)
      ensures |table.rows| == |old(table.rows)| && Ids(table.rows) == Ids(old(table.rows))
      ensures res.Ok? || res.NotFound?
      ensures res.NotFound? <==> id !in Ids(old(table.rows))
      ensures res.NotFound? ==> table.rows == old(table.rows) && audit == old(audit)
      ensures res.Ok? ==>
        var c := FindByClientId(old(table.rows), id).value;
        && table.rows == Replaced(old(table.rows), c.(is_active := false))
        && FindByClientId(table.rows, id) == Some(c.(is_active := false))
        && audit == old(audit) + [AuditEntry(who.user_id, Delete, "CLIENT", id, ActiveSet(false), who.ip)]
    {
      var found := FindByClientId(table.rows, id);
      if found.None? {
        return NotFound;
      }
      var client := table.Deactivate(found.value);
      SaveWritesOneRow(old(table.rows), client);
      audit := audit + [AuditEntry(who.user_id, Delete, "CLIENT", id, ActiveSet(false), who.ip)];
      res := Ok(());
    }

    /** The where clause getAllClients builds, one query parameter at a time. */
    static method BuildWhere(status: Option<string>, os: Option<string>, search: Option<string>) returns (whereClause: Where)
      ensures forall c :: Accepts(whereClause, c) <==> ListAccepts(status, os, search, c)
    {
      whereClause := Where(None, None, None);
      if status == Some("active") {
        whereClause := whereClause.(is_active := Some(true));
      } else if status == Some("inactive") {
        whereClause := whereClause.(is_active := Some(false));
      }
      if Truthy(os) {
        whereClause := whereClause.(os := os);
      }
      if Truthy(search) {
        whereClause := whereClause.(search := search);
      }
    }

    /** getAllClients: the stored clients the filters accept, most recently seen first. */
    method GetAllClients(status: Option<string>, os: Option<string>, search: Option<string>) returns (r: seq<Client>)
      ensures forall c :: multiset(r)[c] == if ListAccepts(status, os, search, c) then multiset(table.rows)[c] else 0
      ensures forall c :: c in r <==> c in table.rows && ListAccepts(status, os, search, c)
      ensures forall i, j :: 0 <= i < j < |r| ==> r[i].last_seen >= r[j].last_seen
    {
      var whereClause := BuildWhere(status, os, search);
      r := FindAll(table.rows, whereClause);
      forall c ensures c in r <==> c in table.rows && ListAccepts(status, os, search, c) {
        assert c in r <==> multiset(r)[c] > 0;
        assert c in table.rows <==> multiset(table.rows)[c] > 0;
      }
    }

    /** getClientById: 404 for an unknown id, else the client and a latest sample, or none. */
    method GetClientById(id: string) returns (res: Response<(Client, Option<Sample>)>)
      ensures res.Ok? || res.NotFound?
      ensures res.NotFound? <==> id !in Ids(table.rows)
      ensures res.Ok? ==> FindByClientId(table.rows, id) == Some(res.data.0)
      ensures res.Ok? ==> (res.data.1.None? <==> forall s :: s in samples ==> s.client_id != id)
      ensures res.Ok? && res.data.1.Some? ==>
        && res.data.1.value in samples && res.data.1.value.client_id == id
        && forall s :: s in samples && s.client_id == id ==> s.collected_at <= res.data.1.value.collected_at
    {
      var client := FindByClientId(table.rows, id);
      if client.None? {
        return NotFound;
      }
      var latestMetrics := LatestSample(samples, id);
      res := Ok((client.value, latestMetrics));
    }

    /** getClientMetrics: the client's samples collected since the window's start, oldest first. */
    method GetClientMetrics(id: string, period: Option<string>, now: int, monthAgo: int) returns (r: seq<Sample>)
      ensures forall s :: multiset(r)[s] ==
                          if s.client_id == id && s.collected_at >= Cutoff(period, now, monthAgo) then multiset(samples)[s] else 0
      ensures forall i, j :: 0 <= i < j < |r| ==> r[i].collected_at <= r[j].collected_at
    {
      var startDate := Cutoff(period, now, monthAgo);
      r := MetricsWindow(samples, id, startDate);
    }
  }

  /**
   * A parsed report that is a JSON value other than an object or null (a
   * number, a string, a boolean, an array) has no client_id and no
   * system_info, so it is refused with 400 and nothing is stored.
   */
  method NonObjectReport(b: Backend, now: int) returns (res: Response<()>)
    requires b.Valid()
    modifies b, b.table
    ensures b.Valid()
    ensures res.BadRequest?
    ensures b.table.rows == old(b.table.rows) && b.samples == old(b.samples) && b.audit == old(b.audit)
  {
    res := b.ReceiveClientData(Some(Payload(None, None, None)), now);
  }

  /**
   * Reports are not idempotent: once a report is accepted, the same report
   * sent again is accepted too and stores a second sample.
   */
  method ReportTwice(b: Backend, report: Option<Payload>, now: int, later: int)
    returns (first: Response<()>, second: Response<()>)
    requires b.Valid()
    modifies b, b.table
    ensures b.Valid()
    ensures first.Ok? ==> second.Ok? && |b.samples| == |old(b.samples)| + 2
    ensures first.Ok? ==> b.samples[|b.samples| - 2] == b.samples[|b.samples| - 1]
  {
    first := b.ReceiveClientData(report, now);
    if first.Ok? {
      var id := report.value.client_id.value;
      assert id in Ids(b.table.rows);
    }
    second := b.ReceiveClientData(report, later);
  }

  /** A deleted client is still found afterwards, unchanged but inactive, and no sample is removed. */
  method DeleteThenGet(b: Backend, id: string, who: Requester)
    returns (before: Response<(Client, Option<Sample>)>, deleted: Response<()>, after: Response<(Client, Option<Sample>)>)
    requires b.Valid()
    modifies b, b.table
    ensures b.Valid()
    ensures deleted.Ok? <==> before.Ok?
    ensures deleted.Ok? ==> after.Ok? && !after.data.0.is_active
    ensures b.samples == old(b.samples)
    ensures deleted.Ok? ==> after.data.0 == before.data.0.(is_active := false)
  {
    before := b.GetClientById(id);
    deleted := b.DeleteClient(id, who);
    after := b.GetClientById(id);
  }

  /**
   * The first report of a new device, with identifier
   * 11111111-1111-4111-8111-111111111111, creates an active
   * client whose latest sample carries the reported figures.
   */
  method ExampleReport(f: Figures, now: int)
    returns (created: Response<()>, seen: Response<(Client, Option<Sample>)>)
    requires f.cpu_usage == 12.5
    ensures created.Ok?
    ensures seen.Ok? && seen.data.0.is_active && seen.data.0.hostname == Some("pc1")
    ensures seen.data.0.first_seen == seen.data.0.last_seen == now
    ensures seen.data.1.Some? && seen.data.1.value.figures.cpu_usage == 12.5
  {
    var id := "11111111-1111-4111-8111-111111111111";
    Uuid.ExampleIdentifier();
    var info := SystemInfo(Some("pc1"), Some("Windows"), None, f, now);
    var report := Some(Payload(Some(id), None, Some(info)));
    var b := new Backend();
    assert Ids(b.table.rows) == {};
    assert WellFormed(report.value) && Uuid.IsUuidV4(id);
    created := b.ReceiveClientData(report, now);
    assert !created.ServerError? && !created.BadRequest?;
    assert b.table.rows == [NewRecord(id, None, info, now)];
    assert b.samples == [SampleOf(id, info)];
    FindUnique(b.table.rows, NewRecord(id, None, info, now));
    seen := b.GetClientById(id);
  }
}
