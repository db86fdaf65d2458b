/**
 * The ownership test of src/viewmodel/useCars.ts: `isCarOwner(carId)` looks
 * the id up among the fetched cars and compares the owner with the signed-in
 * user, both possibly missing.
 */
module Cars {

  import opened Wrappers
  import opened CarEntity
  import opened CarOptions
  import Seqs

  function HasId(carId: string): Car -> bool
  {
    (c: Car) => c.id == carId
  }

  /** `cars?.find(car => car.id === carId)` */
  function FindCar(cars: Option<seq<Car>>, carId: string): (r: Option<Car>)
    ensures r.None? <==> forall c :: c in CarsOrEmpty(cars) ==> c.id != carId
    ensures r.Some? ==> r.value in CarsOrEmpty(cars) && r.value.id == carId
  {
    var all := CarsOrEmpty(cars);
    var r := Seqs.Find(all, HasId(carId));
    assert r.None? <==> forall c :: c in all ==> c.id != carId by {
      if r.None? {
        forall c | c in all ensures c.id != carId {
          var i :| 0 <= i < |all| && all[i] == c;
          assert !HasId(carId)(all[i]);
        }
      }
    }
    r
  }

  /** `car?.userId === userId`, as written: with the car found, whether the
      user is signed in and owns it; with no such car, `undefined ===
      userId`, which holds when nobody is signed in. */
  function IsCarOwner(cars: Option<seq<Car>>, userId: Option<string>, carId: string): (r: bool)
    ensures FindCar(cars, carId).Some? ==> (r <==> userId == Some(FindCar(cars, carId).value.userId))
    ensures FindCar(cars, carId).None? ==> (r <==> userId.None?)
  {
    var car := FindCar(cars, carId);
    if car.None? then userId.None? else userId == Some(car.value.userId)
  }

  /** As written, a signed-out visitor "owns" every id that matches no car,
      including every id while the cars are still loading. */
  lemma UnknownCarOwnedWithoutUser(carId: string)
    ensures IsCarOwner(None, None, carId)
    ensures IsCarOwner(Some([]), None, carId)
  {
  }

  /** Ownership as intended: the car exists and its owner is the signed-in
      user. */
  function IsCarOwnerChecked(cars: Option<seq<Car>>, userId: Option<string>, carId: string): (r: bool)
    ensures r <==> userId.Some? && exists c :: c in CarsOrEmpty(cars) && c.id == carId && c.userId == userId.value &&
                                       FindCar(cars, carId) == Some(c)
  {
    var car := FindCar(cars, carId);
    car.Some? && userId == Some(car.value.userId)
  }

  /** The two agree whenever the id is found or a user is signed in, and
      the checked test never grants a missing car. */
  lemma CheckedAgreesOnKnownCars(cars: Option<seq<Car>>, userId: Option<string>, carId: string)
    ensures FindCar(cars, carId).Some? || userId.Some? ==>
      IsCarOwnerChecked(cars, userId, carId) == IsCarOwner(cars, userId, carId)
    ensures FindCar(cars, carId).None? ==> !IsCarOwnerChecked(cars, userId, carId)
  {
  }

  /** With ids unique among the cars, the owner is the user of the one car
      with that id. */
  lemma OwnerOfUniqueId(cars: seq<Car>, user: string, c: Car)
    requires c in cars
    requires forall d :: d in cars && d.id == c.id ==> d == c
    ensures IsCarOwnerChecked(Some(cars), Some(user), c.id) <==> c.userId == user
  {
    var found := FindCar(Some(cars), c.id);
    assert found == Some(c);
  }
}
