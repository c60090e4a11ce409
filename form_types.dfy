/** The controlled form's state and error record. */
module FormTypes {
  import opened Wrappers

  /** The four keys of the form. */
  datatype Field = Email | Password | ConfirmPassword | AcceptTerms

  datatype FormState = FormState(
    email: string,
    password: string,
    confirmPassword: string,
    acceptTerms: bool)

  /**
   * A `FormErrors` object. Every key is optional; a key present with `None`
   * is a key explicitly set to `undefined`, which a spread can produce.
   */
  type FormErrors = map<Field, Option<string>>
}
