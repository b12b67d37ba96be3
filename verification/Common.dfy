/** Definitions shared by every model in the project. */
module Common {
  datatype Option<+T> = None | Some(value: T)

  predicate IsHex(c: char) {
    '0' <= c <= '9' || 'a' <= c <= 'f'
  }

  const NIL_UUID := "00000000-0000-0000-0000-000000000000"

  /** A canonical UUID other than the nil one. */
  predicate IsUuid(s: string) {
    && |s| == 36 && s != NIL_UUID
    && forall i :: 0 <= i < 36 ==>
      if i == 8 || i == 13 || i == 18 || i == 23 then s[i] == '-'
      else IsHex(s[i])
  }

  predicate IsSha256(s: string) {
    |s| == 64 && forall i :: 0 <= i < 64 ==> IsHex(s[i])
  }
}
