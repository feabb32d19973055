/**
 * The anonymous report wizard: violence type, description (and optionally the
 * victim's age), province and municipality, confirmation, then submission to the
 * reporting service, whose answer is an input here.
 */
module Report {
  import opened Wrappers
  import opened Strings

  datatype Step = TypeStep | Details | LocationStep | Confirm | Success

  /** The steps shown in the progress bar, in order; `success` is not among them. */
  const STEPS: seq<Step> := [TypeStep, Details, LocationStep, Confirm]

  const MIN_DESCRIPTION: nat := 10
  const SEND_FAILED: string := "Não foi possível enviar a denúncia. Tente novamente."
  const OFFLINE: string := "Sem ligação à internet. A denúncia será guardada localmente."

  /** How the request ended: an ok response, a non-ok response, or an exception. */
  datatype Response = Ok | NotOk | Threw

  /** The request body; the optional fields are `null` when empty. */
  datatype Payload = Payload(kind: string, description: string, province: Option<string>,
                             municipality: Option<string>, victimAge: Option<string>)

  /** `s || null`. */
  function OrNull(s: string): (r: Option<string>)
    ensures r.None? <==> s == ""
    ensures r.Some? ==> r.value == s
  {
    if s == "" then None else Some(s)
  }

  /** The position of a step in the progress bar, or -1 for `success`. */
  function StepIndex(s: Step): (i: int)
    ensures -1 <= i < |STEPS| && (i >= 0 ==> STEPS[i] == s) && (i == -1 <==> s == Success)
  {
    match s
    case TypeStep => 0
    case Details => 1
    case LocationStep => 2
    case Confirm => 3
    case Success => -1
  }

  /** The progress bar's width in percent. */
  function Progress(s: Step): (width: real)
    ensures 0.0 <= width <= 100.0
    ensures width == 0.0 <==> s == Success
    ensures width == 100.0 <==> s == Confirm
  {
    (StepIndex(s) + 1) as real / 4.0 * 100.0
  }

  /** Each step fills a quarter more of the bar, and confirmation fills it completely. */
  lemma ProgressGrows()
    ensures forall i :: 0 <= i < |STEPS| ==> Progress(STEPS[i]) == (i + 1) as real * 25.0
    ensures forall i, j :: 0 <= i < j < |STEPS| ==> Progress(STEPS[i]) < Progress(STEPS[j])
  {
    forall i | 0 <= i < |STEPS| ensures Progress(STEPS[i]) == (i + 1) as real * 25.0 {
      assert StepIndex(STEPS[i]) == i;
    }
  }

  class ReportScreen {
    var step: Step
    var selectedType: string
    var description: string
    var province: string
    var municipality: string
    var victimAge: string
    var isSubmitting: bool
    /** The alert messages shown so far. */
    var alerts: seq<string>

    constructor ()
      ensures step == TypeStep && selectedType == "" && description == "" && province == ""
      ensures municipality == "" && victimAge == "" && !isSubmitting && alerts == []
    {
      step, selectedType, description := TypeStep, "", "";
      province, municipality, victimAge := "", "", "";
      isSubmitting, alerts := false, [];
    }

    /** The body `submitReport` sends for the current answers. */
    function Body(): (p: Payload)
      reads this
      ensures p.kind == selectedType && p.description == description
      ensures p.province == OrNull(province) && p.municipality == OrNull(municipality)
      ensures p.victimAge == OrNull(victimAge)
    {
      Payload(selectedType, description, OrNull(province), OrNull(municipality), OrNull(victimAge))
    }

    /** The type continue button: only with a type selected. */
    method ContinueFromType()
      requires step == TypeStep
      modifies this
      ensures step == if selectedType != "" then Details else TypeStep
      ensures selectedType == old(selectedType) && description == old(description)
      ensures province == old(province) && municipality == old(municipality)
      ensures victimAge == old(victimAge) && isSubmitting == old(isSubmitting) && alerts == old(alerts)
    {
      if selectedType != "" {
        step := Details;
      }
    }

    /** The details continue button: only when the trimmed description is at least ten UTF-16 units long. */
    method ContinueFromDetails()
      requires step == Details
      modifies this
      ensures step == if Utf16Length(Trim(description)) >= MIN_DESCRIPTION then LocationStep else Details
      ensures selectedType == old(selectedType) && description == old(description)
      ensures province == old(province) && municipality == old(municipality)
      ensures victimAge == old(victimAge) && isSubmitting == old(isSubmitting) && alerts == old(alerts)
    {
      if Utf16Length(Trim(description)) >= MIN_DESCRIPTION {
        step := LocationStep;
      }
    }

    /** Both the skip and the continue button of the location step lead to confirmation. */
    method ContinueFromLocation()
      requires step == LocationStep
      modifies this
      ensures step == Confirm
      ensures province == old(province) && municipality == old(municipality)
      ensures selectedType == old(selectedType) && description == old(description)
      ensures victimAge == old(victimAge) && isSubmitting == old(isSubmitting) && alerts == old(alerts)
    {
      step := Confirm;
    }

    /** A province chip: selects the province and clears the municipality. */
    method SelectProvince(p: string)
      modifies this
      ensures province == p && municipality == ""
      ensures step == old(step) && selectedType == old(selectedType) && description == old(description)
      ensures victimAge == old(victimAge) && isSubmitting == old(isSubmitting) && alerts == old(alerts)
    {
      province := p;
      municipality := "";
    }

    /** A municipality chip. */
    method SelectMunicipality(m: string)
      modifies this
      ensures municipality == m && province == old(province) && step == old(step)
      ensures selectedType == old(selectedType) && description == old(description)
      ensures victimAge == old(victimAge) && isSubmitting == old(isSubmitting) && alerts == old(alerts)
    {
      municipality := m;
    }

    /**
     * The back button: from the type step or the success page it leaves the
     * screen (`exit`); from any other step it goes to the previous one.
     */
    method Back() returns (exit: bool)
      modifies this
      ensures exit <==> old(step) == TypeStep || old(step) == Success
      ensures exit ==> step == old(step)
      ensures !exit ==> StepIndex(old(step)) > 0 && step == STEPS[StepIndex(old(step)) - 1]
      ensures selectedType == old(selectedType) && description == old(description)
      ensures province == old(province) && municipality == old(municipality)
      ensures victimAge == old(victimAge) && isSubmitting == old(isSubmitting) && alerts == old(alerts)
    {
      if step == TypeStep || step == Success {
        return true;
      }
      exit := false;
      var idx := StepIndex(step);
      if idx > 0 {
        step := STEPS[idx - 1];
      }
    }

    /**
     * `submitReport`: sends the body; an ok response shows the success page; a
     * non-ok one alerts and stays on confirmation; an exception alerts and also
     * shows the success page. Submitting ends in every case.
     */
    method Submit(response: Response) returns (sent: Payload)
      requires step == Confirm && !isSubmitting
      modifies this
      ensures sent == old(Body())
      ensures step == if response == NotOk then Confirm else Success
      ensures alerts == old(alerts) + (if response == Ok then [] else if response == NotOk then [SEND_FAILED] else [OFFLINE])
      ensures !isSubmitting
      ensures selectedType == old(selectedType) && description == old(description)
      ensures province == old(province) && municipality == old(municipality) && victimAge == old(victimAge)
    {
      isSubmitting := true;
      sent := Body();
      match response {
        case Ok =>
          step := Success;
        case NotOk =>
          alerts := alerts + [SEND_FAILED];
        case Threw =>
          alerts := alerts + [OFFLINE];
          step := Success;
      }
      isSubmitting := false;
    }
  }

  /**
   * A report with only a type and a long enough description reaches confirmation
   * and sends `null` for province, municipality and age.
   */
  method MinimalReport(kind: string, text: string) returns (sent: Payload, step: Step)
    requires kind != "" && Utf16Length(Trim(text)) >= MIN_DESCRIPTION
    ensures sent == Payload(kind, text, None, None, None) && step == Success
  {
    var r := new ReportScreen();
    r.selectedType := kind;
    r.ContinueFromType();
    r.description := text;
    r.ContinueFromDetails();
    r.ContinueFromLocation();
    sent := r.Submit(Ok);
    step := r.step;
  }

  /**
   * On the location step, a province chosen after a municipality clears it, so
   * the report that goes out carries the new province and no stale municipality.
   */
  method ProvinceClearsMunicipality(kind: string, text: string, p1: string, m: string, p2: string)
      returns (sent: Payload)
    requires kind != "" && Utf16Length(Trim(text)) >= MIN_DESCRIPTION && p2 != ""
    ensures sent.municipality == None && sent.province == Some(p2)
    ensures sent.kind == kind && sent.description == text
  {
    var r := new ReportScreen();
    r.selectedType := kind;
    r.ContinueFromType();
    r.description := text;
    r.ContinueFromDetails();
    r.SelectProvince(p1);
    r.SelectMunicipality(m);
    r.SelectProvince(p2);
    r.ContinueFromLocation();
    sent := r.Submit(NotOk);
  }
}
