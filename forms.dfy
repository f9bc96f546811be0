/** The complaint form of cms_app/forms.py: two fixed choice lists and the
    fields that must be filled in before a complaint is accepted. */
module Forms {
  import opened Nullable

  datatype Category = Academic | Facilities | Transport | Hostel | Administration

  datatype Priority = Low | Medium | High

  /** The value the form submits for a category choice. */
  function CategoryName(c: Category): string {
    match c
    case Academic => "Academic"
    case Facilities => "Facilities"
    case Transport => "Transport"
    case Hostel => "Hostel"
    case Administration => "Administration"
  }

  /** Membership in the category choice list: exactly the five names are accepted. */
  function ParseCategory(s: string): (r: Option<Category>)
    ensures forall c :: r == Some(c) <==> CategoryName(c) == s
  {
    if s == "Academic" then Some(Academic)
    else if s == "Facilities" then Some(Facilities)
    else if s == "Transport" then Some(Transport)
    else if s == "Hostel" then Some(Hostel)
    else if s == "Administration" then Some(Administration)
    else None
  }

  function PriorityName(p: Priority): string {
    match p
    case Low => "Low"
    case Medium => "Medium"
    case High => "High"
  }

  /** Membership in the priority choice list: exactly the three names are accepted. */
  function ParsePriority(s: string): (r: Option<Priority>)
    ensures forall p :: r == Some(p) <==> PriorityName(p) == s
  {
    if s == "Low" then Some(Low)
    else if s == "Medium" then Some(Medium)
    else if s == "High" then Some(High)
    else None
  }

  /** The characters Python's str.strip removes (those for which str.isspace holds). */
  predicate IsSpace(ch: char) {
    || ch == ' '
    || '\t' <= ch <= '\r'
    || '\U{1c}' <= ch <= '\U{1f}'
    || ch == '\U{85}'
    || ch == '\U{a0}'
    || ch == '\U{1680}'
    || '\U{2000}' <= ch <= '\U{200a}'
    || ch == '\U{2028}'
    || ch == '\U{2029}'
    || ch == '\U{202f}'
    || ch == '\U{205f}'
    || ch == '\U{3000}'
  }

  predicate Blank(s: string) {
    forall i :: 0 <= i < |s| ==> IsSpace(s[i])
  }

  /** wtforms' DataRequired: the field is present and is not empty after stripping white space. */
  predicate Filled(field: Option<string>) {
    field.Some? && !Blank(field.value)
  }

  /** The raw fields of a submitted ComplaintForm; a field the request lacks is None.
      The attachment is a FileField without validators and is handled by the submit handler. */
  datatype ComplaintForm = ComplaintForm(
    title: Option<string>,
    category: Option<string>,
    priority: Option<string>,
    description: Option<string>)

  /** The data of a form that passed validation. */
  datatype Submission = Submission(title: string, category: Category, priority: Priority, description: string)

  /** validate_on_submit: every field carries DataRequired and the two select fields
      accept only their listed choices. */
  function Validate(form: ComplaintForm): (r: Option<Submission>)
    ensures r.Some? <==>
              && Filled(form.title)
              && Filled(form.description)
              && form.category.Some? && ParseCategory(form.category.value).Some?
              && form.priority.Some? && ParsePriority(form.priority.value).Some?
    ensures r.Some? ==>
              && form.title == Some(r.value.title)
              && form.description == Some(r.value.description)
              && form.category == Some(CategoryName(r.value.category))
              && form.priority == Some(PriorityName(r.value.priority))
  {
    if !Filled(form.title) || !Filled(form.description) || form.category.None? || form.priority.None? then None
    else
      match (ParseCategory(form.category.value), ParsePriority(form.priority.value))
      case (Some(c), Some(p)) => Some(Submission(form.title.value, c, p, form.description.value))
      case _ => None
  }

  /** The form a browser sends for a submission. */
  function FormOf(s: Submission): ComplaintForm {
    ComplaintForm(Some(s.title), Some(CategoryName(s.category)), Some(PriorityName(s.priority)), Some(s.description))
  }

  /** Any choice from the two lists with a non-blank title and description passes validation unchanged. */
  lemma ValidateFormOf(s: Submission)
    requires !Blank(s.title) && !Blank(s.description)
    ensures Validate(FormOf(s)) == Some(s)
  {
    assert ParseCategory(CategoryName(s.category)) == Some(s.category);
    assert ParsePriority(PriorityName(s.priority)) == Some(s.priority);
  }
}
