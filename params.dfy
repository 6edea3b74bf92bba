/** The `Parameters` object edited by the parameters panel, and the
    single-field updates its form handlers perform. A JavaScript object is
    modelled as a map from property names to values: the declared properties
    are present with values of their declared types, and an optional
    property (`skew?: number`) may be absent. */
module Params {

  /** The connection kinds; `Unset` stands for the empty string of the union. */
  datatype ConnectionType = Joist | Truss | MultiTruss | Unset

  /** The property names of a `Parameters` object. `IncludeJobSummaryField`
      is written by a handler although the declared type lacks it, so it is
      carried as one more optional property. */
  datatype Field =
    | ConnectionTypeField | HangerTypeField | DownloadDurationField | UpliftDurationField
    | JobIdField | QuantityField | MemberTypeField | LumberSpeciesField | WidthField
    | DepthField | NumberOfPliesField | MemberIdField | LumberFinishRoughSawnField
    | SkewField | SlopeField | TopFlangeBendField | TopFlangeSlopeField
    | OffsetDirectionField | HighLowCenterField | IncludeJobSummaryField

  /** A property value. Numbers are JavaScript numbers, kept as reals. */
  datatype Value =
    | Text(text: string)
    | Number(number: real)
    | Flag(flag: bool)
    | Kind(kind: ConnectionType)

  /** The properties the type declares without `?`. */
  predicate Required(f: Field) {
    !(f.SkewField? || f.SlopeField? || f.TopFlangeBendField? || f.TopFlangeSlopeField?
      || f.OffsetDirectionField? || f.HighLowCenterField? || f.IncludeJobSummaryField?)
  }

  /** `v` has the type declared for property `f`. */
  predicate Fits(f: Field, v: Value) {
    match f
    case ConnectionTypeField => v.Kind?
    case QuantityField | SkewField | SlopeField | TopFlangeBendField | TopFlangeSlopeField => v.Number?
    case LumberFinishRoughSawnField | IncludeJobSummaryField => v.Flag?
    case _ => v.Text?
  }

  predicate WellTyped(p: map<Field, Value>) {
    (forall f :: Required(f) ==> f in p) && (forall f :: f in p ==> Fits(f, p[f]))
  }

  type Parameters = p: map<Field, Value> | WellTyped(p)
    witness map[
      ConnectionTypeField := Kind(Unset), HangerTypeField := Text(""),
      DownloadDurationField := Text(""), UpliftDurationField := Text(""),
      JobIdField := Text(""), QuantityField := Number(1.0),
      MemberTypeField := Text(""), LumberSpeciesField := Text(""),
      WidthField := Text(""), DepthField := Text(""),
      NumberOfPliesField := Text(""), MemberIdField := Text(""),
      LumberFinishRoughSawnField := Flag(false)]

  /** `params.downloadDuration`, the stored load duration. */
  function LoadDuration(p: Parameters): string {
    assert Required(DownloadDurationField);
    p[DownloadDurationField].text
  }

  /** `params.upliftDuration`. */
  function UpliftDuration(p: Parameters): string {
    assert Required(UpliftDurationField);
    p[UpliftDurationField].text
  }

  /** One form handler's update, carrying the value the form control
      delivered. The optional slider properties have no handler. */
  datatype Edit =
    | SetConnectionType(kind: ConnectionType)
    | SetHangerType(text: string)
    | SetDownloadDuration(text: string)
    | SetUpliftDuration(text: string)
    | SetJobId(text: string)
    | SetQuantity(number: real)
    | SetMemberType(text: string)
    | SetLumberSpecies(text: string)
    | SetWidth(text: string)
    | SetDepth(text: string)
    | SetNumberOfPlies(text: string)
    | SetMemberId(text: string)
    | SetLumberFinishRoughSawn(flag: bool)
    | SetIncludeJobSummary(flag: bool)

  /** The property an edit writes. */
  function Target(e: Edit): Field {
    match e
    case SetConnectionType(_) => ConnectionTypeField
    case SetHangerType(_) => HangerTypeField
    case SetDownloadDuration(_) => DownloadDurationField
    case SetUpliftDuration(_) => UpliftDurationField
    case SetJobId(_) => JobIdField
    case SetQuantity(_) => QuantityField
    case SetMemberType(_) => MemberTypeField
    case SetLumberSpecies(_) => LumberSpeciesField
    case SetWidth(_) => WidthField
    case SetDepth(_) => DepthField
    case SetNumberOfPlies(_) => NumberOfPliesField
    case SetMemberId(_) => MemberIdField
    case SetLumberFinishRoughSawn(_) => LumberFinishRoughSawnField
    case SetIncludeJobSummary(_) => IncludeJobSummaryField
  }

  /** The value an edit writes; it has the type declared for its property. */
  function Written(e: Edit): (v: Value)
    ensures Fits(Target(e), v)
  {
    match e
    case SetConnectionType(k) => Kind(k)
    case SetQuantity(n) => Number(n)
    case SetLumberFinishRoughSawn(b) => Flag(b)
    case SetIncludeJobSummary(b) => Flag(b)
    case _ => Text(e.text)
  }

  /** A handler `setParams({...params, field: value})`: the handler's own
      property holds the delivered value afterwards, no property disappears,
      and every other property keeps its value. */
  function ApplyEdit(p: Parameters, e: Edit): (r: Parameters)
    ensures r.Keys == p.Keys + {Target(e)}
    ensures r[Target(e)] == Written(e)
    ensures forall f :: f in p && f != Target(e) ==> r[f] == p[f]
  {
    p[Target(e) := Written(e)]
  }

  /** The handlers run one after the other, each on the object the previous
      one produced. */
  function ApplyEdits(p: Parameters, edits: seq<Edit>): Parameters
    decreases |edits|
  {
    if edits == [] then p else ApplyEdits(ApplyEdit(p, edits[0]), edits[1..])
  }

  lemma UpdatesOfDistinctKeysCommute(m: map<Field, Value>, k1: Field, v1: Value, k2: Field, v2: Value)
    requires k1 != k2
    ensures m[k1 := v1][k2 := v2] == m[k2 := v2][k1 := v1]
  {
    var a, b := m[k1 := v1][k2 := v2], m[k2 := v2][k1 := v1];
    assert forall k :: k in a ==> a[k] == b[k];
  }

  lemma SecondUpdateOfKeyWins(m: map<Field, Value>, k: Field, v1: Value, v2: Value)
    ensures m[k := v1][k := v2] == m[k := v2]
  {
    var a, b := m[k := v1][k := v2], m[k := v2];
    assert forall j :: j in a ==> a[j] == b[j];
  }

  /** Handlers for different properties do not interfere: either order gives
      the same object. */
  lemma EditsOnDistinctFieldsCommute(p: Parameters, e1: Edit, e2: Edit)
    requires Target(e1) != Target(e2)
    ensures ApplyEdit(ApplyEdit(p, e1), e2) == ApplyEdit(ApplyEdit(p, e2), e1)
  {
    UpdatesOfDistinctKeysCommute(p, Target(e1), Written(e1), Target(e2), Written(e2));
  }

  /** A second edit of the same property overwrites the first, so repeating
      an edit changes nothing more. */
  lemma LaterEditOfSameFieldWins(p: Parameters, e1: Edit, e2: Edit)
    requires Target(e1) == Target(e2)
    ensures ApplyEdit(ApplyEdit(p, e1), e2) == ApplyEdit(p, e2)
    ensures ApplyEdit(ApplyEdit(p, e2), e2) == ApplyEdit(p, e2)
  {
    SecondUpdateOfKeyWins(p, Target(e2), Written(e1), Written(e2));
    SecondUpdateOfKeyWins(p, Target(e2), Written(e2), Written(e2));
  }

  /** A property that no edit of a sequence targets keeps its presence and
      its value. */
  lemma {:induction false} UntargetedFieldKept(p: Parameters, edits: seq<Edit>, f: Field)
    requires forall i :: 0 <= i < |edits| ==> Target(edits[i]) != f
    ensures f in ApplyEdits(p, edits) <==> f in p
    ensures f in p ==> ApplyEdits(p, edits)[f] == p[f]
    decreases |edits|
  {
    if edits != [] {
      UntargetedFieldKept(ApplyEdit(p, edits[0]), edits[1..], f);
    }
  }
}
