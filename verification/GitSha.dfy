/** Git object names as the release tools compare them. */
module GitSha {

  type Sha = string

  /** A full lower-case hexadecimal object name. */
  predicate IsSha(s: Sha) {
    |s| == 40 && forall i :: 0 <= i < 40 ==> '0' <= s[i] <= '9' || 'a' <= s[i] <= 'f'
  }
}
