/** The three cars the listing hooks' tests run on, and how `filter`
    unfolds on lists that short. */
module CarFixtures {

  import opened CarEntity
  import Seqs

  /** The posting dates "2023-01-01", "2023-01-02" and "2023-01-03" share
      all but their last character. */
  const january := "2023-01-0"

  const corolla := Car("1", "1", "Toyota", "Corolla", Automatic, "Blue", 2020, january + "1", "")
  const civic := Car("2", "2", "Honda", "Civic", Manual, "Black", 2021, january + "2", "")
  const camry := Car("3", "1", "Toyota", "Camry", Automatic, "Red", 2019, january + "3", "")
  const carsMock := [corolla, civic, camry]

  lemma Filter2(a: Car, b: Car, p: Car -> bool)
    ensures Seqs.Filter([a, b], p) == (if p(a) then [a] else []) + (if p(b) then [b] else [])
  {
    Seqs.FilterCons(a, [b], p);
    Seqs.FilterCons(b, [], p);
  }

  lemma Filter3(a: Car, b: Car, c: Car, p: Car -> bool)
    ensures Seqs.Filter([a, b, c], p)
         == (if p(a) then [a] else []) + (if p(b) then [b] else []) + (if p(c) then [c] else [])
  {
    Seqs.FilterCons(a, [b, c], p);
    Filter2(b, c, p);
  }
}
