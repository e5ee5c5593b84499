/// `UserSlice`: a slice of accounts ordered by login, as `sort.Sort` takes it.
module UserSlice {
  import opened GitHub
  import opened Text

  /// Both accounts have a login: `Less` dereferences it.
  predicate HasLogins(s: array<User>, i: int, j: int)
    reads s
  {
    0 <= i < s.Length && 0 <= j < s.Length && s[i].login.Some? && s[j].login.Some?
  }

  /// `UserSlice.Less`: the login of account `i` comes before that of account
  /// `j`. It is strict, and of two different logins one is less.
  predicate Less(s: array<User>, i: int, j: int): (r: bool)
    reads s
    requires HasLogins(s, i, j)
    ensures r ==> s[i].login != s[j].login
    ensures !r && s[i].login != s[j].login ==> Below(s[j].login.value, s[i].login.value)
  {
    BelowTrichotomy(s[i].login.value, s[j].login.value);
    Below(s[i].login.value, s[j].login.value)
  }

  /// `UserSlice.Swap`: exchange accounts `i` and `j`; the accounts stay the same.
  method Swap(s: array<User>, i: int, j: int)
    requires 0 <= i < s.Length && 0 <= j < s.Length
    modifies s
    ensures s[..] == old(s[..])[i := old(s[j])][j := old(s[i])]
    ensures multiset(s[..]) == multiset(old(s[..]))
  {
    s[i], s[j] := s[j], s[i];
  }

  /// `Less` is the strict weak order `sort.Sort` needs: irreflexive,
  /// transitive, and two accounts neither of which is less than the other
  /// share their login.
  lemma LessIsStrictWeakOrder(s: array<User>, i: int, j: int, k: int)
    requires HasLogins(s, i, j) && HasLogins(s, j, k)
    ensures !Less(s, i, i)
    ensures Less(s, i, j) ==> !Less(s, j, i)
    ensures Less(s, i, j) && Less(s, j, k) ==> Less(s, i, k)
    ensures !Less(s, i, j) && !Less(s, j, i) ==> s[i].login == s[j].login
  {
    BelowIrreflexive(s[i].login.value);
    if Less(s, i, j) {
      BelowAsymmetric(s[i].login.value, s[j].login.value);
      if Less(s, j, k) {
        BelowTransitive(s[i].login.value, s[j].login.value, s[k].login.value);
      }
    }
    if s[i].login != s[j].login {
      BelowTotal(s[i].login.value, s[j].login.value);
    }
  }
}
