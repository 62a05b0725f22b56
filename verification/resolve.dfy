/** Resolution of the command's optional arguments: the lookback interval,
    the supplier and the outlet. Each is either given explicitly or picked
    from a numbered list through the interactive chooser; the chooser's
    display labels and the system values are parallel lists. */
module Resolve {
  import opened StockTypes

  /** What resolving one argument yields: a value, a re-prompt (the user's
      answer was not a valid option, so the chooser asks again), or a fatal
      invalid-argument error. */
  datatype Resolution<T> = Resolved(value: T) | Reprompt | Invalid(message: string)

  /** The interval codes accepted on the command line, in the order of the
      precomputed "since" values they select. */
  const IntervalCodes: seq<string> := ["1w", "2w", "1m", "2m"]

  const InvalidIntervalMessage: string := "--interval should be set as 1w or 2w or 1m or 2m"

  /** The interactive chooser: the user's answer, as a 0-based index into
      the labels, is accepted only when it names one of them. */
  function Choose(labels: seq<string>, answer: int): (r: Option<nat>)
  {
    if 0 <= answer < |labels| then Some(answer) else None
  }

  /** Interval chosen interactively: the option at the chosen index. */
  function ChooseInterval<T>(options: seq<T>, display: seq<string>, answer: int): (r: Resolution<T>)
    requires |options| == |display|
    ensures r.Resolved? <==> 0 <= answer < |display|
    ensures r.Resolved? ==> r.value == options[answer]
    ensures !r.Invalid?
  {
    match Choose(display, answer)
    case Some(i) => Resolved(options[i])
    case None => Reprompt
  }

  /** An explicit code selects the "since" value at its position in
      IntervalCodes; any other non-empty code is an invalid-argument error;
      no code at all defers to the interactive chooser. */
  function ValidateInterval<T>(code: string, options: seq<T>, display: seq<string>, answer: int): (r: Resolution<T>)
    requires |options| == |IntervalCodes| == |display|
    ensures code != "" ==> (r.Resolved? <==> code in IntervalCodes)
    ensures forall i :: 0 <= i < |IntervalCodes| && code == IntervalCodes[i] ==> r == Resolved(options[i])
    ensures code != "" && code !in IntervalCodes ==> r == Invalid(InvalidIntervalMessage)
    ensures code == "" ==> r == ChooseInterval(options, display, answer)
  {
    if code != "" then
      if code == "1w" then Resolved(options[0])
      else if code == "2w" then Resolved(options[1])
      else if code == "1m" then Resolved(options[2])
      else if code == "2m" then Resolved(options[3])
      else Invalid(InvalidIntervalMessage)
    else
      ChooseInterval(options, display, answer)
  }

  /** The display names of a listing, in order. */
  function PluckNames(entries: seq<Entry>): (names: seq<string>)
    ensures |names| == |entries|
    ensures forall i :: 0 <= i < |entries| ==> names[i] == entries[i].name
  {
    if entries == [] then [] else [entries[0].name] + PluckNames(entries[1..])
  }

  /** The system ids of a listing, in order. */
  function PluckIds(entries: seq<Entry>): (ids: seq<Id>)
    ensures |ids| == |entries|
    ensures forall i :: 0 <= i < |entries| ==> ids[i] == entries[i].id
  {
    if entries == [] then [] else [entries[0].id] + PluckIds(entries[1..])
  }

  /** The supplier a run works with: its id, and its name, which the
      product filter later compares against. */
  datatype SupplierChoice = SupplierChoice(id: Id, name: string)

  /** Supplier chosen interactively: the id at the chosen index of the ids
      list, recorded together with the label shown at that index. */
  function ChooseSupplier(suppliers: seq<Entry>, answer: int): (r: Resolution<SupplierChoice>)
    ensures r.Resolved? <==> 0 <= answer < |suppliers|
    ensures r.Resolved? ==> r.value == SupplierChoice(suppliers[answer].id, suppliers[answer].name)
    ensures !r.Invalid?
  {
    var display := PluckNames(suppliers);
    var options := PluckIds(suppliers);
    match Choose(display, answer)
    case Some(i) => Resolved(SupplierChoice(options[i], display[i]))
    case None => Reprompt
  }

  /** Outlet chosen interactively: the id at the chosen index. */
  function ChooseOutlet(outlets: seq<Entry>, answer: int): (r: Resolution<Id>)
    ensures r.Resolved? <==> 0 <= answer < |outlets|
    ensures r.Resolved? ==> r.value == outlets[answer].id
    ensures !r.Invalid?
  {
    var display := PluckNames(outlets);
    var options := PluckIds(outlets);
    match Choose(display, answer)
    case Some(i) => Resolved(options[i])
    case None => Reprompt
  }

  /** An explicit supplier id is kept as given, and the name comes from the
      record fetched for it (`fetched`); without one the supplier is chosen
      from the fetched listing. */
  function ValidateSupplier(supplierId: Id, fetched: Entry, suppliers: seq<Entry>, answer: int): (r: Resolution<SupplierChoice>)
    ensures supplierId != "" ==> r == Resolved(SupplierChoice(supplierId, fetched.name))
    ensures supplierId == "" ==> (r.Resolved? <==> 0 <= answer < |suppliers|)
    ensures supplierId == "" && r.Resolved? ==> r.value == SupplierChoice(suppliers[answer].id, suppliers[answer].name)
    ensures !r.Invalid?
  {
    if supplierId != "" then Resolved(SupplierChoice(supplierId, fetched.name))
    else ChooseSupplier(suppliers, answer)
  }

  /** An explicit outlet id is accepted unchecked; without one the outlet
      is chosen from the fetched listing. */
  function ValidateOutlet(outletId: Id, outlets: seq<Entry>, answer: int): (r: Resolution<Id>)
    ensures outletId != "" ==> r == Resolved(outletId)
    ensures outletId == "" ==> (r.Resolved? <==> 0 <= answer < |outlets|)
    ensures outletId == "" && r.Resolved? ==> r.value == outlets[answer].id
    ensures !r.Invalid?
  {
    if outletId != "" then Resolved(outletId) else ChooseOutlet(outlets, answer)
  }
}
