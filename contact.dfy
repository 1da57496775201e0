// The contact section: the social links with their mailto rule, and the
// form whose three fields, `submitted` and `loading` flags are updated by
// its event handlers.
module Contact {

  datatype Option<T> = None | Some(value: T)

  /** The three inputs, by their `name` attribute. */
  datatype Field = Name | Email | Message

  datatype FormData = FormData(name: string, email: string, message: string)

  const EmptyForm: FormData := FormData("", "", "")

  function Get(f: FormData, field: Field): string {
    match field
    case Name => f.name
    case Email => f.email
    case Message => f.message
  }

  /** The functional update `{ ...prev, [name]: value }`: the named field
      takes the value, the other two keep theirs. */
  function With(f: FormData, field: Field, value: string): (r: FormData)
    ensures Get(r, field) == value
    ensures forall other :: other != field ==> Get(r, other) == Get(f, other)
  {
    match field
    case Name => f.(name := value)
    case Email => f.(email := value)
    case Message => f.(message := value)
  }

  /** Writing a field twice keeps only the second value; writes to two
      different fields commute. */
  lemma WithLastWriteWins(f: FormData, field: Field, v1: string, v2: string)
    ensures With(With(f, field, v1), field, v2) == With(f, field, v2)
  {
  }

  lemma WithCommutes(f: FormData, a: Field, b: Field, va: string, vb: string)
    requires a != b
    ensures With(With(f, a, va), b, vb) == With(With(f, b, vb), a, va)
  {
  }

  // ---------------------------------------------------------------------
  // Social links

  datatype Social = Social(name: string, handle: string, href: string, color: string)

  const Socials: seq<Social> := [
    Social("GitHub", "@yourusername", "https://github.com/yourusername", "hover:text-white"),
    Social("LinkedIn", "@yusufbalogun", "https://linkedin.com/in/yusufbalogun", "hover:text-[#0a66c2]"),
    Social("Twitter", "@yourusername", "https://twitter.com/yourusername", "hover:text-[#1da1f2]"),
    Social("Email", "yusuf@email.com", "mailto:yusuf@email.com", "hover:text-[#8b5cf6]")
  ]

  /** `href.startsWith("mailto:")`. */
  predicate IsMailto(href: string) {
    "mailto:" <= href
  }

  /** The `target` and `rel` attributes of a link; None is an absent attribute. */
  datatype LinkAttrs = LinkAttrs(target: Option<string>, rel: Option<string>)

  /** A mailto link opens in place with no rel; every other link opens in a
      new tab with rel="noopener noreferrer". */
  function LinkAttrsFor(href: string): (r: LinkAttrs)
    ensures r.target == None <==> IsMailto(href)
    ensures r.rel == None <==> IsMailto(href)
    ensures r.target == None || r.target == Some("_blank")
    ensures r.rel == None || r.rel == Some("noopener noreferrer")
  {
    if IsMailto(href) then LinkAttrs(None, None)
    else LinkAttrs(Some("_blank"), Some("noopener noreferrer"))
  }

  /** Of the four social links only the email link opens in place. */
  lemma OnlyEmailOpensInPlace()
    ensures forall i :: 0 <= i < |Socials| ==>
              (LinkAttrsFor(Socials[i].href).target == None <==> Socials[i].name == "Email")
  {
    assert !IsMailto(Socials[0].href) by { assert Socials[0].href[0] != 'm'; }
    assert !IsMailto(Socials[1].href) by { assert Socials[1].href[0] != 'm'; }
    assert !IsMailto(Socials[2].href) by { assert Socials[2].href[0] != 'm'; }
    assert IsMailto(Socials[3].href) by { assert Socials[3].href[..7] == "mailto:"; }
  }

  // ---------------------------------------------------------------------
  // The form

  class ContactForm {
    var formData: FormData
    var submitted: bool
    var loading: bool
    var pendingSubmits: nat   // submissions still waiting out their 1500 ms delay

    constructor ()
      ensures formData == EmptyForm && !submitted && !loading && pendingSubmits == 0
    {
      formData := EmptyForm;
      submitted, loading := false, false;
      pendingSubmits := 0;
    }

    /** handleChange: one input's new value. */
    method HandleChange(field: Field, value: string)
      modifies this
      ensures formData == With(old(formData), field, value)
      ensures submitted == old(submitted) && loading == old(loading)
      ensures pendingSubmits == old(pendingSubmits)
    {
      formData := With(formData, field, value);
    }

    /** handleSubmit up to its await: loading starts and the delay begins. */
    method HandleSubmit()
      modifies this
      ensures loading && pendingSubmits == old(pendingSubmits) + 1
      ensures formData == old(formData) && submitted == old(submitted)
    {
      loading := true;
      pendingSubmits := pendingSubmits + 1;
    }

    /** handleSubmit after its await: there is no failure path, the
        submission always succeeds. */
    method SubmitDelayElapsed()
      requires pendingSubmits > 0
      modifies this
      ensures !loading && submitted
      ensures pendingSubmits == old(pendingSubmits) - 1 && formData == old(formData)
    {
      loading := false;
      submitted := true;
      pendingSubmits := pendingSubmits - 1;
    }

    /** handleReset: back to an empty form; `loading` is left alone. */
    method HandleReset()
      modifies this
      ensures !submitted && formData == EmptyForm
      ensures loading == old(loading) && pendingSubmits == old(pendingSubmits)
    {
      submitted := false;
      formData := EmptyForm;
    }

    /** The success panel replaces the form exactly while submitted. */
    predicate ShowsSuccessPanel()
      reads this
    {
      submitted
    }

    /** The submit button is disabled exactly while loading. */
    predicate SubmitDisabled()
      reads this
    {
      loading
    }
  }

  /** A fresh form, filled in, submitted and reset, ends empty and idle. */
  method SubmitAndReset(name: string, email: string, message: string)
  {
    var form := new ContactForm();
    form.HandleChange(Name, name);
    form.HandleChange(Email, email);
    form.HandleChange(Message, message);
    assert form.formData == FormData(name, email, message);
    form.HandleSubmit();
    assert form.SubmitDisabled() && !form.ShowsSuccessPanel();
    form.SubmitDelayElapsed();
    assert form.ShowsSuccessPanel() && !form.SubmitDisabled();
    form.HandleReset();
    assert form.formData == EmptyForm && !form.ShowsSuccessPanel() && !form.loading;
  }
}
