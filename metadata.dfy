/**
 * Metadata post-processing: every column record of a metadata response
 * gets a `python_type` entry inferred from its `type` tag, by dropping the
 * tag's first `_`-separated segment, joining the rest with spaces and
 * looking the result up in a fixed PostgreSQL-to-Python table.
 */
module Metadata {
  import opened Wrappers
  import opened Text

  /** The Python types the table can name. */
  datatype PyType = Int | Bool | Str | Date | Float | Decimal | DateTime

  /** The type table, exactly as the client writes it (including the key `varcahr`). */
  const DataTypeCodec: map<string, PyType> := map[
    "bigint" := Int,
    "boolean" := Bool,
    "bytea" := Str,
    "character varying" := Str,
    "date" := Date,
    "double" := Float,
    "double precision" := Float,
    "int" := Int,
    "integer" := Int,
    "numeric" := Decimal,
    "oid" := Int,
    "real" := Float,
    "smallint" := Int,
    "text" := Str,
    "timestamp without time zone" := DateTime,
    "timestamp" := DateTime,
    "varcahr" := Str
  ]

  /** `data_type_codec.get(key, str)`: total, with `str` as the default. */
  function Lookup(key: string): PyType
  {
    if key in DataTypeCodec then DataTypeCodec[key] else Str
  }

  /** `' '.join(tag.split('_')[1:])`: the tag without its first segment, words separated by spaces. */
  function TypeKey(tag: string): (key: string)
    ensures '_' !in key
  {
    var words := Split(tag, '_')[1..];
    assert '_' !in Join(" ", words) by {
      if '_' in Join(" ", words) {
        JoinChars(" ", words, '_');
      }
    }
    Join(" ", words)
  }

  /** The Python type inferred for a column's `type` tag. */
  function TypeOf(tag: string): (t: PyType)
    ensures t != Str ==> TypeKey(tag) in DataTypeCodec && t == DataTypeCodec[TypeKey(tag)]
  {
    Lookup(TypeKey(tag))
  }

  /** A type name spelt the way the service spells tags: spaces become underscores. */
  function Underscored(key: string): (r: string)
    ensures |r| == |key|
  {
    if |key| == 0 then "" else [if key[0] == ' ' then '_' else key[0]] + Underscored(key[1..])
  }

  // What the inference depends on

  /** Whatever the first segment is, it is dropped; only the rest of the tag decides. */
  lemma TypeOfIgnoresPrefix(prefix: string, rest: string)
    requires '_' !in prefix
    ensures TypeOf(prefix + "_" + rest) == Lookup(Join(" ", Split(rest, '_')))
  {
    SplitHead(prefix, '_', rest);
    assert prefix + "_" + rest == prefix + ['_'] + rest;
    assert Split(prefix + "_" + rest, '_')[1..] == Split(rest, '_');
  }

  lemma {:induction false} SplitUnderscored(key: string)
    requires '_' !in key
    ensures Split(Underscored(key), '_') == Split(key, ' ')
  {
    if |key| > 0 {
      SplitUnderscored(key[1..]);
      assert Underscored(key)[1..] == Underscored(key[1..]);
    }
  }

  /** A tag `<prefix>_<name with _ for spaces>` is given the table's type for that name, or `str` if the name is not in the table. */
  lemma TypeOfSpelledName(prefix: string, name: string)
    requires '_' !in prefix && '_' !in name
    ensures TypeOf(prefix + "_" + Underscored(name)) == Lookup(name)
  {
    TypeOfIgnoresPrefix(prefix, Underscored(name));
    SplitUnderscored(name);
    JoinSplit(name, ' ');
  }

  /** No key of the table contains `_`. */
  lemma CodecKeysFreeOfUnderscore()
    ensures forall k :: k in DataTypeCodec ==> '_' !in k
  {
  }

  /** Every row of the table is reached by the tag the service sends for it. */
  lemma EveryCodecEntryReachable(name: string)
    requires name in DataTypeCodec
    ensures TypeOf("type" + "_" + Underscored(name)) == DataTypeCodec[name]
  {
    CodecKeysFreeOfUnderscore();
    assert '_' !in name;
    assert '_' !in "type";
    TypeOfSpelledName("type", name);
  }

  /** The misspelt key leaves `varchar` to the default: it still maps to `str`, but not through the table. */
  lemma VarcharOnlyByDefault()
    ensures "varchar" !in DataTypeCodec
    ensures "varcahr" in DataTypeCodec
    ensures TypeOf("type_varchar") == Str
  {
    TypeOfOneWord("type", "varchar");
    assert "type" + "_" + "varchar" == "type_varchar";
  }

  /** A bare tag with no `_` has an empty key, so it defaults to `str`. */
  lemma UnsegmentedTagIsStr(tag: string)
    requires '_' !in tag
    ensures TypeOf(tag) == Str
  {
    SplitFree(tag, '_');
    assert "" !in DataTypeCodec;
  }

  /** A one-word tag: its second segment is the key. */
  lemma TypeOfOneWord(prefix: string, w: string)
    requires '_' !in prefix && '_' !in w
    ensures TypeOf(prefix + "_" + w) == Lookup(w)
  {
    TypeOfIgnoresPrefix(prefix, w);
    SplitFree(w, '_');
  }

  /** A two-word tag: the key is its last two segments joined by a space. */
  lemma TypeOfTwoWords(prefix: string, w1: string, w2: string)
    requires '_' !in prefix && '_' !in w1 && '_' !in w2
    ensures TypeOf(prefix + "_" + w1 + "_" + w2) == Lookup(w1 + " " + w2)
  {
    assert prefix + "_" + w1 + "_" + w2 == prefix + "_" + (w1 + ['_'] + w2);
    TypeOfIgnoresPrefix(prefix, w1 + ['_'] + w2);
    SplitHead(w1, '_', w2);
    SplitFree(w2, '_');
    assert [w1, w2][1..] == [w2];
  }

  /** The tag of the client's test: `type_numeric` is a decimal. */
  lemma NumericIsDecimal()
    ensures TypeOf("type_numeric") == Decimal
  {
    TypeOfOneWord("type", "numeric");
    assert "type" + "_" + "numeric" == "type_numeric";
  }

  /** A two-word name: `type_double_precision` is a float. */
  lemma DoublePrecisionIsFloat()
    ensures TypeOf("type_double_precision") == Float
  {
    TypeOfTwoWords("type", "double", "precision");
    assert "type" + "_" + "double" + "_" + "precision" == "type_double_precision";
    assert "double" + " " + "precision" == "double precision";
  }

  /** The unknown tag of the client's test defaults to `str`. */
  lemma UnknownIsStr()
    ensures TypeOf("type_unknown") == Str
  {
    assert Lookup("unknown") == Str by {
      assert "unknown" !in DataTypeCodec;
    }
    TypeOfOneWord("type", "unknown");
    assert "type" + "_" + "unknown" == "type_unknown";
  }

  /** An unknown two-word tag defaults to `str` as well. */
  lemma UnknownTagIsStr()
    ensures TypeOf("type_unknown_tag") == Str
  {
    assert Lookup("unknown tag") == Str by {
      assert "unknown tag" !in DataTypeCodec;
    }
    TypeOfTwoWords("type", "unknown", "tag");
    assert "type" + "_" + "unknown" + "_" + "tag" == "type_unknown_tag";
    assert "unknown" + " " + "tag" == "unknown tag";
  }

  // Column records

  /** A JSON value inside a column record: a string, a Python type, or anything else. */
  datatype Value = Text(text: string) | PythonType(pyType: PyType) | OtherJson

  /** One column record of a metadata response (a JSON object). */
  type Column = map<string, Value>

  const TYPE_KEY: string := "type"
  const PYTHON_TYPE_KEY: string := "python_type"

  /** The column has a string `type` entry; otherwise the client's `column['type'].split` raises. */
  predicate HasTypeTag(c: Column)
  {
    TYPE_KEY in c && c[TYPE_KEY].Text?
  }

  /** The column with `python_type` set from its tag; every other entry is kept as it was. */
  function Annotate(c: Column): (r: Column)
    requires HasTypeTag(c)
    ensures r.Keys == c.Keys + {PYTHON_TYPE_KEY}
    ensures forall k :: k in c && k != PYTHON_TYPE_KEY ==> r[k] == c[k]
    ensures r[PYTHON_TYPE_KEY] == PythonType(TypeOf(c[TYPE_KEY].text))
  {
    c[PYTHON_TYPE_KEY := PythonType(TypeOf(c[TYPE_KEY].text))]
  }

  /** The error the loop raises at the first column without a string `type`. */
  datatype ColumnError = MissingTypeTag(index: nat)

  /** Index of the first column without a string `type`, or the length if there is none. */
  function FirstUntagged(cols: seq<Column>): (n: nat)
    ensures n <= |cols|
    ensures forall j :: 0 <= j < n ==> HasTypeTag(cols[j])
    ensures n < |cols| ==> !HasTypeTag(cols[n])
  {
    if |cols| == 0 then 0
    else if HasTypeTag(cols[0]) then 1 + FirstUntagged(cols[1..])
    else 0
  }

  /** The column list after the loop: annotated up to the first untagged column, untouched from there on. */
  function AnnotateColumns(cols: seq<Column>): (r: seq<Column>)
    ensures |r| == |cols|
    ensures forall j :: 0 <= j < |cols| ==> r[j] == cols[j] || (HasTypeTag(cols[j]) && r[j] == Annotate(cols[j]))
  {
    if |cols| == 0 then []
    else if HasTypeTag(cols[0]) then [Annotate(cols[0])] + AnnotateColumns(cols[1..])
    else cols
  }

  /** What the loop leaves: the columns before the first untagged one annotated, the rest untouched. */
  lemma {:induction false} AnnotateColumnsAt(cols: seq<Column>)
    ensures forall j :: 0 <= j < FirstUntagged(cols) ==> AnnotateColumns(cols)[j] == Annotate(cols[j])
    ensures forall j :: FirstUntagged(cols) <= j < |cols| ==> AnnotateColumns(cols)[j] == cols[j]
  {
    if |cols| > 0 && HasTypeTag(cols[0]) {
      AnnotateColumnsAt(cols[1..]);
      var rest := AnnotateColumns(cols[1..]);
      assert AnnotateColumns(cols) == [Annotate(cols[0])] + rest;
      forall j | 1 <= j < |cols| ensures AnnotateColumns(cols)[j] == rest[j - 1] && cols[j] == cols[1..][j - 1] {
      }
    }
  }

  /** When every column has a tag, each one receives exactly its inferred type and keeps its other entries. */
  lemma AllTaggedAllAnnotated(cols: seq<Column>)
    requires forall j :: 0 <= j < |cols| ==> HasTypeTag(cols[j])
    ensures |AnnotateColumns(cols)| == |cols|
    ensures forall j :: 0 <= j < |cols| ==> AnnotateColumns(cols)[j] == Annotate(cols[j])
  {
    AnnotateColumnsAt(cols);
  }

  /** Annotating twice is the same as once: a second pass rewrites the same `python_type`. */
  lemma AnnotateIdempotent(c: Column)
    requires HasTypeTag(c)
    ensures HasTypeTag(Annotate(c)) && Annotate(Annotate(c)) == Annotate(c)
  {
    assert TYPE_KEY != PYTHON_TYPE_KEY;
  }

  /**
   * `_map_metadata_data_type`: annotates the columns in place, in order,
   * and fails at the first column without a string `type`, leaving the
   * columns before it annotated and the rest untouched. Each slot holds
   * its own record value, so no two slots share one.
   */
  method MapMetadataDataType(columns: array<Column>) returns (r: Outcome<ColumnError>)
    modifies columns
    ensures columns[..] == AnnotateColumns(old(columns[..]))
    ensures r.Pass? <==> FirstUntagged(old(columns[..])) == columns.Length
    ensures r.Fail? ==> r.error == MissingTypeTag(FirstUntagged(old(columns[..])))
  {
    ghost var before := columns[..];
    ghost var after := AnnotateColumns(before);
    AnnotateColumnsAt(before);
    var i := 0;
    while i < columns.Length
      invariant 0 <= i <= columns.Length
      invariant i <= FirstUntagged(before)
      invariant forall j :: 0 <= j < i ==> columns[j] == after[j]
      invariant forall j :: i <= j < columns.Length ==> columns[j] == before[j]
    {
      var c := columns[i];
      if !HasTypeTag(c) {
        assert i == FirstUntagged(before);
        assert columns[..] == after;
        return Fail(MissingTypeTag(i));
      }
      assert c == before[i] && i < FirstUntagged(before);
      assert after[i] == Annotate(c);
      columns[i] := Annotate(c);
      i := i + 1;
    }
    assert columns[..] == after;
    return Pass;
  }
}
