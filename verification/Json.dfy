/** JSON values as trees, and objects given by the fields they populate. */
module Json {
  import opened Basics

  datatype Json =
    | JNull
    | JBool(b: bool)
    | JInt(n: int)
    | JFloat(r: real)
    | JStr(s: string)
    | JArr(items: seq<Json>)
    | JObj(fields: map<string, Json>)

  /** The field names of the schemas; an object may hold any other name too. */
  datatype Name =
    | SCHEMA | EVENT | IDENTITY | OBSERVED_AT_NS | TRANSFER_ID | DIRECTION | RECEIPT_ID
    | ASSOCIATED_TRANSFER_IDS | COMPUTE_KIND | REQUEUE_REASON | TERMINAL_REASON | BYTES_MOVED | BLOCK_COUNT
    | DURATION_NS | DEVICE_DURATION_NS | REQUEST_ID | WORKER_GENERATION | RANK | RECOVERY_EPOCH
    | SCHEDULER_GENERATION | JOB_ID | WORKERS | ROSTER | DESCRIPTORS | EVIDENCE_LABEL | DST_REGION_ID
    | DST_OFFSET | SIZE | SRC_REGION_ID | SRC_OFFSET 

  function Text(n: Name): string {
    match n
    case SCHEMA => "schema"
    case EVENT => "event"
    case IDENTITY => "identity"
    case OBSERVED_AT_NS => "observed_at_ns"
    case TRANSFER_ID => "transfer_id"
    case DIRECTION => "direction"
    case RECEIPT_ID => "receipt_id"
    case ASSOCIATED_TRANSFER_IDS => "associated_transfer_ids"
    case COMPUTE_KIND => "compute_kind"
    case REQUEUE_REASON => "requeue_reason"
    case TERMINAL_REASON => "terminal_reason"
    case BYTES_MOVED => "bytes_moved"
    case BLOCK_COUNT => "block_count"
    case DURATION_NS => "duration_ns"
    case DEVICE_DURATION_NS => "device_duration_ns"
    case REQUEST_ID => "request_id"
    case WORKER_GENERATION => "worker_generation"
    case RANK => "rank"
    case RECOVERY_EPOCH => "recovery_epoch"
    case SCHEDULER_GENERATION => "scheduler_generation"
    case JOB_ID => "job_id"
    case WORKERS => "workers"
    case ROSTER => "roster"
    case DESCRIPTORS => "descriptors"
    case EVIDENCE_LABEL => "evidence_label"
    case DST_REGION_ID => "dst_region_id"
    case DST_OFFSET => "dst_offset"
    case SIZE => "size"
    case SRC_REGION_ID => "src_region_id"
    case SRC_OFFSET => "src_offset"
  }

  /** The field that a text names, found among the names of its length. */
  function NameOf(s: string): Option<Name> {
    match |s|
    case 4 => if s == "rank" then Some(RANK) else if s == "size" then Some(SIZE) else None
    case 5 => if s == "event" then Some(EVENT) else None
    case 6 =>
      if s == "schema" then Some(SCHEMA)
      else if s == "job_id" then Some(JOB_ID)
      else if s == "roster" then Some(ROSTER)
      else None
    case 7 => if s == "workers" then Some(WORKERS) else None
    case 8 => if s == "identity" then Some(IDENTITY) else None
    case 9 => if s == "direction" then Some(DIRECTION) else None
    case 10 =>
      if s == "receipt_id" then Some(RECEIPT_ID)
      else if s == "request_id" then Some(REQUEST_ID)
      else if s == "dst_offset" then Some(DST_OFFSET)
      else if s == "src_offset" then Some(SRC_OFFSET)
      else None
    case 11 =>
      if s == "transfer_id" then Some(TRANSFER_ID)
      else if s == "bytes_moved" then Some(BYTES_MOVED)
      else if s == "block_count" then Some(BLOCK_COUNT)
      else if s == "duration_ns" then Some(DURATION_NS)
      else if s == "descriptors" then Some(DESCRIPTORS)
      else None
    case 12 => if s == "compute_kind" then Some(COMPUTE_KIND) else None
    case 13 =>
      if s == "dst_region_id" then Some(DST_REGION_ID)
      else if s == "src_region_id" then Some(SRC_REGION_ID)
      else None
    case 14 =>
      if s == "observed_at_ns" then Some(OBSERVED_AT_NS)
      else if s == "requeue_reason" then Some(REQUEUE_REASON)
      else if s == "recovery_epoch" then Some(RECOVERY_EPOCH)
      else if s == "evidence_label" then Some(EVIDENCE_LABEL)
      else None
    case 15 => if s == "terminal_reason" then Some(TERMINAL_REASON) else None
    case 17 => if s == "worker_generation" then Some(WORKER_GENERATION) else None
    case 18 => if s == "device_duration_ns" then Some(DEVICE_DURATION_NS) else None
    case 20 => if s == "scheduler_generation" then Some(SCHEDULER_GENERATION) else None
    case 23 => if s == "associated_transfer_ids" then Some(ASSOCIATED_TRANSFER_IDS) else None
    case _ => None
  }

  lemma NameOfText(n: Name)
    ensures NameOf(Text(n)) == Some(n)
  {
    match n
    case SCHEMA =>
    case EVENT =>
    case IDENTITY =>
    case OBSERVED_AT_NS =>
    case TRANSFER_ID =>
    case DIRECTION =>
    case RECEIPT_ID =>
    case ASSOCIATED_TRANSFER_IDS =>
    case COMPUTE_KIND =>
    case REQUEUE_REASON =>
    case TERMINAL_REASON =>
    case BYTES_MOVED =>
    case BLOCK_COUNT =>
    case DURATION_NS =>
    case DEVICE_DURATION_NS =>
    case REQUEST_ID =>
    case WORKER_GENERATION =>
    case RANK =>
    case RECOVERY_EPOCH =>
    case SCHEDULER_GENERATION =>
    case JOB_ID =>
    case WORKERS =>
    case ROSTER =>
    case DESCRIPTORS =>
    case EVIDENCE_LABEL =>
    case DST_REGION_ID =>
    case DST_OFFSET =>
    case SIZE =>
    case SRC_REGION_ID =>
    case SRC_OFFSET =>
  }

  lemma NamesHaveTexts()
    ensures forall n :: NameOf(Text(n)) == Some(n)
  {
    hide NameOf;
    hide Text;
    forall n ensures NameOf(Text(n)) == Some(n) { NameOfText(n); }
  }

  /** The object with exactly the fields that `value` gives. */
  function Object(value: Name -> Option<Json>): (j: Json)
    ensures j.JObj?
    ensures forall n :: At(j.fields, n) == value(n)
    ensures forall k :: k in j.fields ==> exists n :: k == Text(n)
  {
    hide Text;
    hide NameOf;
    NamesHaveTexts();
    var texts := set n: Name | value(n).Some? :: Text(n);
    JObj(map k | k in texts :: value(NameOf(k).value).value)
  }

  function At(fields: map<string, Json>, n: Name): Option<Json> {
    if Text(n) in fields then Some(fields[Text(n)]) else None
  }

  /** The fields of an object determine it. */
  lemma ObjectDetermined(value: Name -> Option<Json>, j: Json)
    requires j.JObj? && (forall k :: k in j.fields ==> exists n :: k == Text(n))
    requires forall n :: At(j.fields, n) == value(n)
    ensures Object(value) == j
  {
    hide Text;
    var o := Object(value);
    forall k | k in j.fields ensures k in o.fields && o.fields[k] == j.fields[k] {
      var n :| k == Text(n);
      assert At(j.fields, n) == At(o.fields, n);
    }
    forall k | k in o.fields ensures k in j.fields {
      var n :| k == Text(n);
      assert At(o.fields, n) == At(j.fields, n);
    }
  }

  function Texts(names: set<Name>): set<string> { set n | n in names :: Text(n) }

  /** An object that populates exactly `names`. */
  predicate Populates(value: Name -> Option<Json>, names: set<Name>) {
    forall n :: value(n).Some? <==> n in names
  }

  lemma ObjectKeys(value: Name -> Option<Json>, names: set<Name>)
    requires Populates(value, names)
    ensures Object(value).fields.Keys == Texts(names)
  {
    hide Text;
    hide Object;
    var f := Object(value).fields;
    forall k | k in f ensures k in Texts(names) {
      var n :| k == Text(n);
      assert At(f, n) == value(n);
    }
    forall n | n in names ensures Text(n) in f { assert At(f, n) == value(n); }
  }

  /** An object with exactly these keys and these values under them. */
  lemma ObjectIs(value: Name -> Option<Json>, names: set<Name>, j: Json)
    requires Populates(value, names) && j.JObj? && j.fields.Keys == Texts(names)
    requires forall n :: n in names ==> At(j.fields, n) == value(n)
    ensures Object(value) == j
  {
    hide Text;
    hide Object;
    forall n ensures At(j.fields, n) == value(n) {
      if n !in names && Text(n) in j.fields {
        var m :| m in names && Text(n) == Text(m);
        NameOfText(n);
        NameOfText(m);
      }
    }
    ObjectDetermined(value, j);
  }

  // ----- arrays -----

  function WriteAll<T>(xs: seq<T>, write: T -> Json): (items: seq<Json>)
    ensures |items| == |xs|
  {
    seq(|xs|, i requires 0 <= i < |xs| => write(xs[i]))
  }

  /** Every item read in order, or nothing when one cannot be read. */
  function ReadAll<T>(items: seq<Json>, read: Json -> Option<T>): Option<seq<T>> {
    if items == [] then Some([])
    else
      var rest :- ReadAll(items[..|items| - 1], read);
      var last :- read(items[|items| - 1]);
      Some(rest + [last])
  }

  /** Reading undoes writing, for the values that are `ok`, and reads nothing else. */
  ghost predicate Inverse<T(!new)>(read: Json -> Option<T>, write: T -> Json, ok: T -> bool) {
    forall j, x :: read(j) == Some(x) <==> ok(x) && j == write(x)
  }

  lemma {:induction false} ArrayExact<T(!new)>(items: seq<Json>, xs: seq<T>, read: Json -> Option<T>, write: T -> Json,
                                               ok: T -> bool)
    requires Inverse(read, write, ok)
    ensures ReadAll(items, read) == Some(xs) <==>
        (forall i :: 0 <= i < |xs| ==> ok(xs[i])) && items == WriteAll(xs, write)
  {
    if items == [] {
    } else if xs == [] {
    } else {
      var n, m := |items| - 1, |xs| - 1;
      ArrayExact(items[..n], xs[..m], read, write, ok);
      assert WriteAll(xs, write)[..m] == WriteAll(xs[..m], write);
      assert items == items[..n] + [items[n]] && xs == xs[..m] + [xs[m]];
      assert read(items[n]) == Some(xs[m]) <==> ok(xs[m]) && items[n] == write(xs[m]);
      if items == WriteAll(xs, write) { assert items[n] == WriteAll(xs, write)[m]; }
    }
  }

  /** A prefix that cannot be read makes the whole array unreadable. */
  lemma {:induction false} StuckAt<T>(items: seq<Json>, read: Json -> Option<T>, i: nat)
    requires i <= |items| && ReadAll(items[..i], read).None?
    ensures ReadAll(items, read).None?
  {
    if i == |items| {
      assert items[..i] == items;
    } else {
      assert items[..|items| - 1][..i] == items[..i];
      StuckAt(items[..|items| - 1], read, i);
    }
  }
}
