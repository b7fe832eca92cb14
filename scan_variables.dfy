/**
 * Scan-variable handling of `scanlib/scan_variables.py`: parsing a list
 * variable (a comma-separated string, an iterable, or a single value) and
 * merging new values into the variable dictionary.
 */
module ScanVariables {
  import opened Common

  function Count(s: string, c: char): nat {
    if s == [] then 0 else (if s[0] == c then 1 else 0) + Count(s[1..], c)
  }

  /** `s.split(sep)`: the pieces between separators, empty ones included. */
  function Split(s: string, sep: char): (r: seq<string>)
    ensures |r| == Count(s, sep) + 1
    ensures forall i :: 0 <= i < |r| ==> sep !in r[i]
  {
    if s == [] then [""]
    else
      var rest := Split(s[1..], sep);
      if s[0] == sep then [""] + rest
      else [[s[0]] + rest[0]] + rest[1..]
  }

  /** `sep.join(pieces)`. */
  function Join(pieces: seq<string>, sep: char): string
    requires pieces != []
  {
    if |pieces| == 1 then pieces[0] else pieces[0] + [sep] + Join(pieces[1..], sep)
  }

  /** Joining the pieces with the separator gives the string back. */
  lemma {:induction false} JoinSplit(s: string, sep: char)
    ensures Join(Split(s, sep), sep) == s
  {
    if s != [] {
      JoinSplit(s[1..], sep);
      var rest := Split(s[1..], sep);
      if s[0] == sep {
        assert [""] + rest == Split(s, sep);
        assert ([""] + rest)[1..] == rest;
      } else {
        var r := Split(s, sep);
        assert r[1..] == rest[1..];
        if |rest| > 1 {
          assert rest == [rest[0]] + rest[1..];
          assert Join(rest, sep) == rest[0] + [sep] + Join(rest[1..], sep);
        }
      }
    }
  }

  /** Which branch of `parse_list_variable` a raw value takes, and its items. */
  function ListItems(raw: Value): seq<Value> {
    match raw
    case VStr(s) => seq(|Split(s, ',')|, i requires 0 <= i < |Split(s, ',')| => VStr(Split(s, ',')[i]))
    case VList(items) => items
    case _ => [raw]
  }

  /** `tuple(dtype(x) for x in out)`: the first conversion that raises ends it. */
  function ConvertAll<T>(items: seq<Value>, dtype: Value -> Result<T>): (r: Result<seq<T>>)
    ensures r.Ok? <==> forall i :: 0 <= i < |items| ==> dtype(items[i]).Ok?
    ensures r.Ok? ==> |r.value| == |items| && forall i :: 0 <= i < |items| ==> r.value[i] == dtype(items[i]).value
    ensures r.Err? ==> exists i :: 0 <= i < |items| && dtype(items[i]) == Err(r.error)
                                 && forall j :: 0 <= j < i ==> dtype(items[j]).Ok?
  {
    if items == [] then Ok([])
    else
      match dtype(items[0])
      case Err(e) => Err(e)
      case Ok(x) =>
        var rest := ConvertAll(items[1..], dtype);
        if rest.Err? then
          assert exists i :: 0 <= i < |items[1..]| && dtype(items[1..][i]) == Err(rest.error)
                             && forall j :: 0 <= j < i ==> dtype(items[1..][j]).Ok?;
          var i :| 0 <= i < |items[1..]| && dtype(items[1..][i]) == Err(rest.error)
                   && forall j :: 0 <= j < i ==> dtype(items[1..][j]).Ok?;
          assert forall j :: 1 <= j <= i ==> items[1..][j - 1] == items[j];
          Err(rest.error)
        else Ok([x] + rest.value)
  }

  /** `parse_list_variable(raw_value, dtype)`. */
  function ParseListVariable<T>(raw: Value, dtype: Value -> Result<T>): (r: Result<seq<T>>)
    ensures r.Ok? <==> forall i :: 0 <= i < |ListItems(raw)| ==> dtype(ListItems(raw)[i]).Ok?
    ensures r.Err? ==> exists i :: 0 <= i < |ListItems(raw)| && dtype(ListItems(raw)[i]) == Err(r.error)
  {
    ConvertAll(ListItems(raw), dtype)
  }

  /**
   * A string gives one element per comma-separated piece (commas + 1 of
   * them), an iterable one per item, anything else exactly one; each
   * element is the piece or item converted, in order.
   */
  lemma ParseListShapes<T>(raw: Value, dtype: Value -> Result<T>)
    ensures var r := ParseListVariable(raw, dtype);
            r.Ok? ==>
              && (raw.VStr? ==> |r.value| == Count(raw.str, ',') + 1
                                && forall i :: 0 <= i < |r.value| ==> dtype(VStr(Split(raw.str, ',')[i])) == Ok(r.value[i]))
              && (raw.VList? ==> |r.value| == |raw.items|
                                 && forall i :: 0 <= i < |r.value| ==> dtype(raw.items[i]) == Ok(r.value[i]))
              && (!raw.VStr? && !raw.VList? ==> |r.value| == 1 && dtype(raw) == Ok(r.value[0]))
  {
    var items := ListItems(raw);
    if raw.VStr? {
      assert forall i :: 0 <= i < |items| ==> items[i] == VStr(Split(raw.str, ',')[i]);
    }
  }

  /** The variable dictionary a scan script holds and the command line updates. */
  class VariableDict {
    var entries: map<string, Value>

    constructor(initial: map<string, Value>)
      ensures entries == initial
    {
      entries := initial;
    }

    /**
     * The merge step of `update_variable_dict`: every parsed key takes its
     * parsed value, every other key keeps its own, and the same dictionary
     * is returned.
     */
    method Update(argDic: map<string, Value>) returns (d: VariableDict)
      modifies this
      ensures d == this
      ensures entries == old(entries) + argDic
      ensures entries.Keys == old(entries).Keys + argDic.Keys
      ensures forall k :: k in argDic ==> entries[k] == argDic[k]
      ensures forall k :: k in old(entries) && k !in argDic ==> entries[k] == old(entries)[k]
    {
      var pending := argDic.Keys;
      while pending != {}
        invariant pending <= argDic.Keys
        invariant entries == old(entries) + map k | k in argDic && k !in pending :: argDic[k]
        decreases |pending|
      {
        var k :| k in pending;
        entries := entries[k := argDic[k]];
        pending := pending - {k};
      }
      assert (map k | k in argDic && k !in pending :: argDic[k]) == argDic;
      d := this;
    }
  }
}
