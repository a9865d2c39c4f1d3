/** The contact page's state: the message form and the expanded team card. */
module Contact {
  import opened Wrappers

  /** The `name` attribute of the form's four inputs. */
  datatype Field = Name | Email | Subject | Message

  datatype FormData = FormData(name: string, email: string, subject: string, message: string) {
    function Get(f: Field): string {
      match f
      case Name => name
      case Email => email
      case Subject => subject
      case Message => message
    }

    /** `{ ...formData, [field]: value }`. */
    function With(f: Field, value: string): (r: FormData)
      ensures r.Get(f) == value
      ensures forall g :: g != f ==> r.Get(g) == Get(g)
    {
      match f
      case Name => this.(name := value)
      case Email => this.(email := value)
      case Subject => this.(subject := value)
      case Message => this.(message := value)
    }
  }

  const EmptyForm: FormData := FormData("", "", "", "")

  /** Every field is a non-empty string (each one is truthy). */
  predicate AllFilled(d: FormData)
    ensures AllFilled(d) <==> forall f: Field :: d.Get(f) != ""
  {
    EveryFieldFilled(d);
    d.name != "" && d.email != "" && d.subject != "" && d.message != ""
  }

  /** The four named checks are the check of every field. */
  lemma EveryFieldFilled(d: FormData)
    ensures (forall f: Field :: d.Get(f) != "") <==>
      d.name != "" && d.email != "" && d.subject != "" && d.message != ""
  {
    forall f: Field
      ensures d.name != "" && d.email != "" && d.subject != "" && d.message != "" ==> d.Get(f) != ""
    {
      match f
      case Name =>
      case Email =>
      case Subject =>
      case Message =>
    }
    assert d.Get(Name) == d.name && d.Get(Email) == d.email;
    assert d.Get(Subject) == d.subject && d.Get(Message) == d.message;
  }

  /** The card click: the expanded card collapses, any other card becomes
      the (only) expanded one. */
  function ToggleCard(expanded: Option<int>, id: int): (r: Option<int>)
    ensures r == None <==> expanded == Some(id)
    ensures r != None ==> r == Some(id)
  {
    if expanded == Some(id) then None else Some(id)
  }

  /** Whether a card renders expanded; at most one card does. */
  predicate IsExpanded(expanded: Option<int>, id: int) {
    expanded == Some(id)
  }

  /** A form just reset by a successful submit is rejected if submitted
      again, and AllFilled demands each of the four fields. */
  lemma EmptyFormRejected(d: FormData, f: Field)
    ensures !AllFilled(EmptyForm)
    ensures d.Get(f) == "" ==> !AllFilled(d)
  {
  }

  /** Expanded cards are unique. */
  lemma AtMostOneExpanded(expanded: Option<int>, i: int, j: int)
    requires IsExpanded(expanded, i) && IsExpanded(expanded, j)
    ensures i == j
  {
  }

  /** Clicking a card that is not expanded twice leaves no card expanded;
      clicking the expanded card twice leaves it expanded. */
  lemma ToggleCardTwice(expanded: Option<int>, id: int)
    ensures expanded != Some(id) ==> ToggleCard(ToggleCard(expanded, id), id) == None
    ensures expanded == Some(id) ==> ToggleCard(ToggleCard(expanded, id), id) == expanded
  {
  }

  class ContactPage {
    var formData: FormData
    var expandedCard: Option<int>

    constructor ()
      ensures formData == EmptyForm && expandedCard == None
    {
      formData := EmptyForm;
      expandedCard := None;
    }

    /** An input's change handler: only the named field changes. */
    method HandleInputChange(field: Field, value: string)
      modifies this`formData
      ensures formData == old(formData).With(field, value)
      ensures formData.Get(field) == value
      ensures forall g :: g != field ==> formData.Get(g) == old(formData).Get(g)
    {
      formData := formData.With(field, value);
    }

    /** The send button: accepted (and the form cleared) exactly when every
        field is filled; otherwise the form is left as it was. */
    method HandleSubmit() returns (accepted: bool)
      modifies this`formData
      ensures accepted <==> AllFilled(old(formData))
      ensures formData == if accepted then EmptyForm else old(formData)
    {
      if AllFilled(formData) {
        accepted := true;
        formData := EmptyForm;
      } else {
        accepted := false;
      }
    }

    method ClickCard(id: int)
      modifies this`expandedCard
      ensures expandedCard == ToggleCard(old(expandedCard), id)
    {
      expandedCard := ToggleCard(expandedCard, id);
    }
  }

  /** A second submit right after an accepted one is rejected. */
  method SubmitTwice(page: ContactPage) returns (first: bool, second: bool)
    modifies page`formData
    ensures first ==> !second
    ensures page.formData == if first then EmptyForm else old(page.formData)
  {
    first := page.HandleSubmit();
    second := page.HandleSubmit();
  }
}
