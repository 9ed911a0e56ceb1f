// The text form of queue job ids, and why it keeps apart the keys the pipeline uses.
module JobIds {
  import opened Common
  import opened Decimal
  import opened Pipeline

  // An absent suffix and an empty one are the same.
  function DeliveryJobId(id: string, suffix: Option<string>): string {
    if suffix.Some? && suffix.value != "" then "dlv-" + id + "-" + suffix.value else "dlv-" + id
  }

  function RowSuffix(row: RowId): string {
    "obx-" + Print(row)
  }

  // A UUID's text: 36 characters, hexadecimal digits and hyphens.
  predicate IsUuidText(text: string) {
    |text| == 36 && forall i :: 0 <= i < |text| ==> text[i] == '-' || IsDigit(text[i]) || 'a' <= text[i] <= 'f'
  }

  function SuffixText(suffix: Option<string>): string {
    if suffix.Some? then suffix.value else ""
  }

  // Ids of one length are told apart, and so are the suffixes.
  lemma JobIdIsInjective(a: string, x: Option<string>, b: string, y: Option<string>)
    requires |a| == |b|
    ensures DeliveryJobId(a, x) == DeliveryJobId(b, y) <==> a == b && SuffixText(x) == SuffixText(y)
  {
    var s, t := DeliveryJobId(a, x), DeliveryJobId(b, y);
    IdIn(a, x);
    IdIn(b, y);
    if s == t {
      assert a == b;
      if SuffixText(x) != "" && SuffixText(y) != "" {
        assert SuffixText(x) == s[5 + |a|..] == SuffixText(y);
      }
    }
  }

  lemma IdIn(a: string, x: Option<string>)
    ensures var s := DeliveryJobId(a, x);
      && s[4..4 + |a|] == a
      && |s| == 4 + |a| + (if SuffixText(x) == "" then 0 else 1 + |SuffixText(x)|)
      && (SuffixText(x) != "" ==> s[5 + |a|..] == SuffixText(x))
  {
  }

  // Ids of different lengths need not be.
  lemma LengthsMatter()
    ensures DeliveryJobId("1", Some("2")) == DeliveryJobId("1-2", None)
  {
  }

  // ---- the pipeline's keys ----

  function JobId(key: JobKey, uuid: DeliveryId -> string): string {
    match key
    case FanoutJob(d) => DeliveryJobId(uuid(d), None)
    case RowJob(d, row) => DeliveryJobId(uuid(d), Some(RowSuffix(row)))
  }

  // Two jobs of deliveries with UUIDs of their own share an id only if they are the
  // same job: a redelivery never meets the delivery's first job, nor that of another
  // redelivery.
  lemma KeysAreJobIds(j: JobKey, k: JobKey, uuid: DeliveryId -> string)
    requires IsUuidText(uuid(j.delivery)) && IsUuidText(uuid(k.delivery))
    requires uuid(j.delivery) == uuid(k.delivery) ==> j.delivery == k.delivery
    ensures JobId(j, uuid) == JobId(k, uuid) <==> j == k
  {
    JobIdIsInjective(uuid(j.delivery), SuffixOf(j), uuid(k.delivery), SuffixOf(k));
    if j.RowJob? && k.RowJob? && SuffixText(SuffixOf(j)) == SuffixText(SuffixOf(k)) {
      assert RowSuffix(j.row)[4..] == Print(j.row) && RowSuffix(k.row)[4..] == Print(k.row);
      PrintIsInjective(j.row, k.row);
    }
  }

  function SuffixOf(key: JobKey): Option<string> {
    if key.RowJob? then Some(RowSuffix(key.row)) else None
  }

  // So a queue is the same queue under either name of its jobs: for any deliveries
  // with UUIDs that differ, a job id is in use iff its key is.
  lemma QueueByText(jobs: set<JobKey>, key: JobKey, issued: map<DeliveryId, string>)
    requires forall d :: d in issued ==> IsUuidText(issued[d])
    requires forall d, e :: d in issued && e in issued && issued[d] == issued[e] ==> d == e
    requires key.delivery in issued && forall j :: j in jobs ==> j.delivery in issued
    ensures TextId(key, issued) in TextIds(jobs, issued) <==> key in jobs
  {
    if TextId(key, issued) in TextIds(jobs, issued) {
      var j :| j in jobs && j.delivery in issued && TextId(j, issued) == TextId(key, issued);
      KeysAreJobIds(j, key, d => if d in issued then issued[d] else "");
    }
  }

  function TextId(key: JobKey, issued: map<DeliveryId, string>): string
    requires key.delivery in issued
  {
    JobId(key, d => if d in issued then issued[d] else "")
  }

  function TextIds(jobs: set<JobKey>, issued: map<DeliveryId, string>): set<string> {
    set j | j in jobs && j.delivery in issued :: TextId(j, issued)
  }

  // The queue forbids ':' in a job id.
  lemma NoColon(key: JobKey, uuid: DeliveryId -> string)
    requires IsUuidText(uuid(key.delivery))
    ensures ':' !in JobId(key, uuid)
  {
    assert ':' !in uuid(key.delivery);
    if key.RowJob? {
      ValueOfPrinted(key.row);
      assert ':' !in Print(key.row);
      assert ':' !in RowSuffix(key.row);
    }
  }
}
