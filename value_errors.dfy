/** PHP raises a `ValueError` when `BackedEnum::from` gets a string that is not the
    backing value of any case. */
module ValueErrors {

  /** The enum that refused the value, and the refused value. */
  datatype ValueError = ValueError(enumName: string, value: string)
}
