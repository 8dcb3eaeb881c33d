/** `CustomJsonFormatter.add_fields`: after the JSON formatter has filled
    the log record, its `levelname` field is renamed to `level`, the name
    Datadog reads log levels from. */
module LogFormat {
  import opened Wrappers
  import opened Lists
  import opened PyDict

  datatype FormatError = KeyError(key: string)

  /** `log_record['level'] = log_record['levelname']` then
      `del log_record['levelname']`. The right-hand side is read first, so a
      record without `levelname` raises before anything changes. */
  function RenameLevel<V>(d: Dict<string, V>): (r: Result<Dict<string, V>, FormatError>)
    ensures r.Failure? ==> r.error == KeyError("levelname")
  {
    match Get(d, "levelname")
    case None => Failure(KeyError("levelname"))
    case Some(v) => Success(Delete(Assign(d, "level", v), "levelname"))
  }

  /** The rename fails exactly when the record has no `levelname`. */
  lemma RenameLevelFails<V>(d: Dict<string, V>)
    ensures RenameLevel(d).Failure? <==> "levelname" !in Keys(d)
  {
    GetPresent(d, "levelname");
  }

  /** `level` holds what `levelname` held, `levelname` is gone, and every
      other field is untouched; an existing `level` is overwritten. */
  lemma RenameLevelFields<V>(d: Dict<string, V>, k: string)
    requires RenameLevel(d).Success?
    ensures Get(RenameLevel(d).value, "level") == Get(d, "levelname")
    ensures Get(RenameLevel(d).value, "levelname") == None
    ensures k != "level" && k != "levelname" ==> Get(RenameLevel(d).value, k) == Get(d, k)
  {
    var v := Get(d, "levelname").value;
    DeleteGet(Assign(d, "level", v), "levelname", k);
    DeleteGet(Assign(d, "level", v), "levelname", "level");
    DeleteGet(Assign(d, "level", v), "levelname", "levelname");
    AssignGet(d, "level", v, k);
    AssignGet(d, "level", v, "level");
  }

  /** Field order: `level` keeps its place if the record had one, otherwise
      it goes last; `levelname` drops out and the rest keep their order. */
  lemma RenameLevelKeys<V>(d: Dict<string, V>)
    requires RenameLevel(d).Success?
    ensures Keys(RenameLevel(d).value)
         == Without(if "level" in Keys(d) then Keys(d) else Keys(d) + ["level"], ["levelname"])
  {
    var v := Get(d, "levelname").value;
    AssignKeys(d, "level", v);
    DeleteKeys(Assign(d, "level", v), "levelname");
  }

  /** The rename cannot be applied twice to the same record. */
  lemma RenameLevelOnce<V>(d: Dict<string, V>)
    requires RenameLevel(d).Success?
    ensures RenameLevel(RenameLevel(d).value).Failure?
  {
    RenameLevelFields(d, "levelname");
  }

  /** Field names that were distinct stay distinct: the result is still a
      dict. */
  lemma RenameLevelDistinct<V>(d: Dict<string, V>)
    requires Distinct(Keys(d)) && RenameLevel(d).Success?
    ensures Distinct(Keys(RenameLevel(d).value))
  {
    RenameLevelKeys(d);
    var ks := if "level" in Keys(d) then Keys(d) else Keys(d) + ["level"];
    forall i, j | 0 <= i < j < |ks| ensures ks[i] != ks[j] {
      if j == |Keys(d)| {
        assert ks[i] == Keys(d)[i] && Keys(d)[i] in Keys(d);
      }
    }
    WithoutDistinct(ks, ["levelname"]);
  }

  /** The `log_record` dict, which `add_fields` updates in place. */
  class LogRecord<V> {
    var fields: Dict<string, V>

    constructor (fields: Dict<string, V>)
      ensures this.fields == fields
    {
      this.fields := fields;
    }
  }

  /** `CustomJsonFormatter.add_fields(log_record, record, message_dict)`.
      `fill` is what the base formatter's `add_fields` does to the fields;
      when it leaves no `levelname`, the KeyError leaves its fields as they
      are. The base formatter hands back a dict, so its field names are
      distinct, and they stay so. */
  method AddFields<V>(logRecord: LogRecord<V>, fill: Dict<string, V> -> Dict<string, V>) returns (r: Result<(), FormatError>)
    requires Distinct(Keys(fill(logRecord.fields)))
    modifies logRecord
    ensures Distinct(Keys(logRecord.fields))
    ensures r.Success? <==> RenameLevel(fill(old(logRecord.fields))).Success?
    ensures r.Failure? ==> r.error == KeyError("levelname") && logRecord.fields == fill(old(logRecord.fields))
    ensures r.Success? ==> logRecord.fields == RenameLevel(fill(old(logRecord.fields))).value
  {
    logRecord.fields := fill(logRecord.fields);
    var level := Get(logRecord.fields, "levelname");
    if level.None? {
      return Failure(KeyError("levelname"));
    }
    logRecord.fields := Assign(logRecord.fields, "level", level.value);
    logRecord.fields := Delete(logRecord.fields, "levelname");
    RenameLevelDistinct(fill(old(logRecord.fields)));
    r := Success(());
  }
}
