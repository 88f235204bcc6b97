/**
 * The entities of src/types.ts: a field descriptor of the extraction schema, the
 * partial descriptor the editors merge into one, the values a result holds, and
 * the analysis result itself.
 */
module Types {
  import opened Wrappers

  /**
   * The declared type of a field. src/types.ts lists string, number and date;
   * the schema editor can still store 'boolean' through its cast, and
   * src/types/index.ts lists it, so all four are values here.
   */
  datatype DataType = StringType | NumberType | DateType | BooleanType

  /** The literal a type is written as (in the `<select>` options and in the prompt). */
  function TypeName(t: DataType): string
  {
    match t
    case StringType => "string"
    case NumberType => "number"
    case DateType => "date"
    case BooleanType => "boolean"
  }

  /** The `e.target.value as DataType` cast of the editors' `<select>`. */
  function ParseTypeName(s: string): (r: Option<DataType>)
    ensures r.Some? ==> TypeName(r.value) == s
    ensures forall t :: TypeName(t) == s ==> r == Some(t)
  {
    if s == "string" then Some(StringType)
    else if s == "number" then Some(NumberType)
    else if s == "date" then Some(DateType)
    else if s == "boolean" then Some(BooleanType)
    else None
  }

  /** StructureField: `description` is the optional key `description?`. */
  datatype Field = Field(name: string, dtype: DataType, description: Option<string>)

  /** Partial<StructureField>: a key that is `Some` is present in the object literal. */
  datatype Patch = Patch(name: Option<string>, dtype: Option<DataType>, description: Option<string>)

  /** `{ ...f, ...p }`: every key present in `p` overrides the one of `f`. */
  function Merge(f: Field, p: Patch): (r: Field)
    ensures r.name == (if p.name.Some? then p.name.value else f.name)
    ensures r.dtype == (if p.dtype.Some? then p.dtype.value else f.dtype)
    ensures r.description == (if p.description.Some? then p.description else f.description)
  {
    Field(p.name.GetOr(f.name), p.dtype.GetOr(f.dtype), if p.description.Some? then p.description else f.description)
  }

  /** Spreading the same partial object twice is the same as spreading it once. */
  lemma MergeIdempotent(f: Field, p: Patch)
    ensures Merge(Merge(f, p), p) == Merge(f, p)
  {
  }

  /** An empty partial object changes nothing. */
  lemma MergeEmpty(f: Field)
    ensures Merge(f, Patch(None, None, None)) == f
  {
  }

  /**
   * A value of `AnalysisResult.fields` (a `Record<string, any>`): the scalar values
   * a result holds — what the editors write is always a string.
   */
  datatype Value = Str(s: string) | Num(n: int) | Bool(b: bool) | Null

  /** AnalysisResult */
  datatype AnalysisResult = AnalysisResult(fields: map<string, Value>, memo: string)
}
