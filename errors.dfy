/** The exceptions that abort a fixture's setup. */
module Errors {
  import Ipv4

  datatype Error =
    | KeyError(key: string)                  // a missing stack output
    | IndexError                             // indexing past the end of a list
    | ValueError(cause: Ipv4.ParseError)     // `IPv4Network` rejected its text
    | ProvisioningError(stackName: string)   // the provider reported a failed creation
}
