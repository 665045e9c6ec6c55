/** The library calls the engine makes, passed in as uninterpreted functions:
    the hex digests of SHA-224 and of SHA-512 truncated to 256 bits, and
    `datetime.fromtimestamp(ts).isoformat()`, whose result depends on the
    local time zone. */
module Externals {

  datatype Env = Env(
    sha224Hex: string -> string,
    sha512_256Hex: string -> string,
    isoformat: int -> string)
}
