/**
 * The token checks the command validators rely on. Their definitions are not
 * part of this model, so they are passed in as arbitrary functions: every
 * property proved about a validator holds whatever these checks decide.
 */
module ValidatorChecks {
  datatype Checks = Checks(
    validId: string -> bool,
    validAmount: string -> bool,
    validApr: string -> bool,
    validAccountType: string -> bool,
    validInitialBalance: string -> bool,
    /** Conversion of an amount token to a number. */
    parseAmount: string -> real)
}
