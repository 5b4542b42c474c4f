/** The financial calculator screen: the tool chosen by the route's id, the
    form's field values, the last result and the error line.  Parsing the
    field texts into numbers is not part of this model, so the active tool's
    calculation reaches `HandleCalculate` as a function from the form values
    to what the call did. */
module CalculatorPage {
  import opened Numbers
  import opened Formulas

  datatype ChartType = Bar | Line

  /** What `activeTool.calculate(formValues)` did: returned an object, or threw. */
  datatype Outcome = Returned(value: CalcResult) | Threw

  datatype Screen = ToolNotFound | ToolForm(tool: FormulaSpec)

  const FillMessage: string := "Please fill in all fields correctly."
  const CrashMessage: string := "An error occurred. Check inputs."

  /** `inputs.every(input => values[input.name])`: every declared field holds
      a non-empty text (a missing key and "" are both falsy). */
  function AllFilled(inputs: seq<InputField>, values: map<string, string>): (b: bool)
    ensures b <==> forall i :: 0 <= i < |inputs| ==> inputs[i].name in values && values[inputs[i].name] != ""
  {
    if inputs == [] then true
    else inputs[0].name in values && values[inputs[0].name] != "" && AllFilled(inputs[1..], values)
  }

  /** An object whose `error` is a non-empty text is never kept as the result. */
  predicate NoErrorShownAsResult(result: Option<CalcResult>)
  {
    result.Some? ==> !(result.value.Failure? && result.value.error != "")
  }

  class CalculatorView {
    var toolId: string
    var formValues: map<string, string>
    var result: Option<CalcResult>
    var error: string
    var chartType: ChartType

    predicate Valid()
      reads this
    {
      NoErrorShownAsResult(result)
    }

    /** What the screen shows: "Tool not found", or the form of the first
        registry entry with the route's id. */
    function CurrentScreen(): (s: Screen)
      reads this
      ensures s.ToolNotFound? <==> forall i :: 0 <= i < |Registry| ==> Registry[i].id != toolId
      ensures s.ToolForm? ==> s.tool.id == toolId && s.tool in Registry
    {
      match Find(Registry, toolId)
      case None => ToolNotFound
      case Some(t) => ToolForm(t)
    }

    /** The initial state of the component. */
    constructor (toolId: string)
      ensures this.toolId == toolId
      ensures formValues == map[] && result == None && error == "" && chartType == Bar
      ensures Valid()
    {
      this.toolId := toolId;
      formValues := map[];
      result := None;
      error := "";
      chartType := Bar;
    }

    /** A different route id: the effect keyed on `toolId` clears
        everything.  The effect does not run when the id stays the same. */
    method ChangeTool(id: string)
      requires id != toolId
      modifies this
      ensures toolId == id
      ensures formValues == map[] && result == None && error == "" && chartType == Bar
      ensures Valid()
    {
      toolId := id;
      formValues := map[];
      result := None;
      error := "";
      chartType := Bar;
    }

    /** Typing into field `name` overwrites that field only and clears the error. */
    method HandleChange(name: string, value: string)
      requires Valid()
      modifies this`formValues, this`error
      ensures formValues == old(formValues)[name := value]
      ensures forall k :: k in old(formValues) && k != name ==> k in formValues && formValues[k] == old(formValues)[k]
      ensures error == ""
      ensures Valid()
    {
      formValues := formValues[name := value];
      error := "";
    }

    /** The "Calculate Results" button of the form `CurrentScreen()` shows
        for `tool`; the form's inputs decide which fields must be filled. */
    method HandleCalculate(tool: FormulaSpec, calculate: map<string, string> -> Outcome)
      requires Valid()
      modifies this`result, this`error
      ensures Valid()
      // a missing or empty field: nothing is calculated and the result stays
      ensures !AllFilled(tool.inputs, formValues) ==>
                error == FillMessage && result == old(result)
      ensures AllFilled(tool.inputs, formValues) ==>
                match calculate(formValues)
                // a thrown exception leaves the result as it was
                case Threw => error == CrashMessage && result == old(result)
                case Returned(r) =>
                  if r.Failure? && r.error != "" then error == r.error && result == None
                  else result == Some(r) && error == ""
    {
      if !AllFilled(tool.inputs, formValues) {
        error := FillMessage;
        return;
      }
      var outcome := calculate(formValues);
      match outcome {
        case Threw =>
          error := CrashMessage;
        case Returned(r) =>
          if r.Failure? && r.error != "" {
            error := r.error;
            result := None;
          } else {
            result := Some(r);
            error := "";
          }
      }
    }
  }
}
