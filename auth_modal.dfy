/** Sign-in name derivation (project/src/components/AuthModal.tsx). The
    form's email, password and name fields are the inputs; what the modal
    forwards to the root controller is an (email, name) pair. */
module AuthModal {

  datatype Credentials = Credentials(email: string, name: string)

  /** `email.split('@')[0]`: everything before the first '@', or the whole
      email when it has none. */
  function LocalPart(email: string): (r: string)
    ensures r <= email
    ensures '@' !in r
    ensures r == email || email[|r|] == '@'
    decreases |email|
  {
    if email == [] || email[0] == '@' then [] else [email[0]] + LocalPart(email[1..])
  }

  /** `name || email.split('@')[0]`: the typed name unless it is empty. */
  function DerivedName(email: string, name: string): (r: string)
    ensures name != "" ==> r == name
    ensures name == "" ==> r <= email && '@' !in r && (r == email || email[|r|] == '@')
  {
    if name != "" then name else LocalPart(email)
  }

  /** The form submit: the password is collected but not forwarded. */
  function HandleSubmit(email: string, password: string, name: string): (c: Credentials)
    ensures c.email == email
    ensures c.name == DerivedName(email, name)
  {
    Credentials(email, DerivedName(email, name))
  }

  lemma SubmitIgnoresPassword(email: string, p1: string, p2: string, name: string)
    ensures HandleSubmit(email, p1, name) == HandleSubmit(email, p2, name)
  {
  }

  /** The Google button signs in as a fixed demo identity. */
  function HandleGoogleSignIn(): (c: Credentials)
    ensures c.email == "demo@example.com" && c.name == "Demo User"
  {
    Credentials("demo@example.com", "Demo User")
  }

  /** With no typed name, "a@b.com" signs in as "a". */
  lemma LocalPartExample()
    ensures DerivedName("a@b.com", "") == "a"
  {
  }
}
