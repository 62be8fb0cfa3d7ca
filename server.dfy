/**
 * The two exercise routes of the Express server: `/exercices` filters the
 * static exercise list by category, `/exercices/random` picks one element of
 * the filtered list or answers 404.
 */
module Server {
  import opened Sequences

  /** One entry of exercices.json; only its category is inspected by the server. */
  datatype Exercise = Exercise(categorie: string, details: string)

  /** The value Express's query parser gives `req.query.categorie`. */
  datatype Query =
    | Absent                      // no `categorie` parameter: undefined
    | Text(s: string)             // `?categorie=x`
    | Repeated(xs: seq<string>)   // `?categorie=x&categorie=y`: an array

  /** JavaScript truthiness of the query value: undefined and "" are falsy, an array is not. */
  predicate Truthy(q: Query) {
    match q
    case Absent => false
    case Text(s) => s != ""
    case Repeated(_) => true
  }

  /** `exo.categorie === q`: a string is strictly equal only to the same string, never to an array. */
  predicate StrictEquals(categorie: string, q: Query) {
    q.Text? && q.s == categorie
  }

  /** The callback handed to `EXERCICES.filter`. */
  function InCategory(q: Query): Exercise -> bool {
    (exo: Exercise) => StrictEquals(exo.categorie, q)
  }

  /** The list a route works on: the whole list unless the category is truthy. */
  function Selected(exercices: seq<Exercise>, q: Query): seq<Exercise> {
    if Truthy(q) then Filter(exercices, InCategory(q)) else exercices
  }

  /** GET /exercices: the JSON array sent back. */
  function ListExercices(exercices: seq<Exercise>, q: Query): (r: seq<Exercise>)
    ensures !Truthy(q) ==> r == exercices
    ensures Truthy(q) ==> forall e :: e in r <==> e in exercices && StrictEquals(e.categorie, q)
    ensures Truthy(q) ==> forall e :: multiset(r)[e] == if StrictEquals(e.categorie, q) then multiset(exercices)[e] else 0
    ensures q.Repeated? ==> r == []
    ensures IsSubsequence(r, exercices)
  {
    FilterMembers(exercices, InCategory(q));
    FilterCounts(exercices, InCategory(q));
    FilterIsSubsequence(exercices, InCategory(q));
    SubsequenceOfSelf(exercices);
    Selected(exercices, q)
  }

  datatype RandomReply =
    | NotFound(status: int, erreur: string)
    | Found(exercise: Exercise)

  const NOT_FOUND_STATUS: int := 404
  const NOT_FOUND_MESSAGE: string := "Aucun exercice trouvé"

  /** `Math.floor(u * n)` for the value `u` of `Math.random()`, which lies in [0, 1). */
  function RandomIndex(u: real, n: nat): (k: int)
    requires 0.0 <= u < 1.0
    requires n > 0
    ensures 0 <= k < n
  {
    assert u * (n as real) < n as real;
    (u * (n as real)).Floor
  }

  /** GET /exercices/random: 404 for an empty selection, otherwise the element at the random index. */
  function RandomExercice(exercices: seq<Exercise>, q: Query, u: real): (r: RandomReply)
    requires 0.0 <= u < 1.0
    ensures r.NotFound? <==> Selected(exercices, q) == []
    ensures r.NotFound? ==> r.status == NOT_FOUND_STATUS && r.erreur == NOT_FOUND_MESSAGE
    ensures r.Found? ==> r.exercise in Selected(exercices, q) && r.exercise in exercices
    ensures r.Found? && Truthy(q) ==> q.Text? && r.exercise.categorie == q.s
  {
    var liste := Selected(exercices, q);
    if |liste| == 0 then NotFound(NOT_FOUND_STATUS, NOT_FOUND_MESSAGE)
    else
      FilterMembers(exercices, InCategory(q));
      Found(liste[RandomIndex(u, |liste|)])
  }

  /** Every element of a non-empty selection is drawn for some value of `Math.random()`. */
  lemma EveryIndexReachable(n: nat, k: nat)
    requires k < n
    ensures RandomIndex((k as real) / (n as real), n) == k
  {
    var u := (k as real) / (n as real);
    assert u * (n as real) == k as real;
  }
}
