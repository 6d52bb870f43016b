/** The field update of src/components/forms/PersonalInfoForm.tsx. */
module PersonalInfoForm {
  import opened Resume

  /** The `name` attributes of the form's five inputs. */
  datatype PersonalField = Name | Email | Phone | LinkedinUrl | GithubUrl

  /** The value of one field. */
  function FieldOf(p: PersonalInfo, f: PersonalField): string {
    match f
    case Name => p.name
    case Email => p.email
    case Phone => p.phone
    case LinkedinUrl => p.linkedinUrl
    case GithubUrl => p.githubUrl
  }

  /**
   * `handleChange`: `{ ...data, [name]: value }`, a new record in which the named field holds
   * the typed value and every other field is as before.
   */
  function HandleChange(data: PersonalInfo, name: PersonalField, value: string): (r: PersonalInfo)
    ensures FieldOf(r, name) == value
    ensures forall g :: g != name ==> FieldOf(r, g) == FieldOf(data, g)
  {
    match name
    case Name => data.(name := value)
    case Email => data.(email := value)
    case Phone => data.(phone := value)
    case LinkedinUrl => data.(linkedinUrl := value)
    case GithubUrl => data.(githubUrl := value)
  }

  /** A record is fixed by its five fields, so the two laws above determine HandleChange. */
  lemma FieldsDetermineRecord(p: PersonalInfo, q: PersonalInfo)
    requires forall g :: FieldOf(p, g) == FieldOf(q, g)
    ensures p == q
  {
    assert FieldOf(p, Name) == FieldOf(q, Name);
    assert FieldOf(p, Email) == FieldOf(q, Email);
    assert FieldOf(p, Phone) == FieldOf(q, Phone);
    assert FieldOf(p, LinkedinUrl) == FieldOf(q, LinkedinUrl);
    assert FieldOf(p, GithubUrl) == FieldOf(q, GithubUrl);
  }

  /** Typing the value a field already holds changes nothing. */
  lemma HandleChangeSame(data: PersonalInfo, name: PersonalField)
    ensures HandleChange(data, name, FieldOf(data, name)) == data
  {
  }
}
