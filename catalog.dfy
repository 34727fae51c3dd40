/**
 * The static catalog the listing pages read: three gyms with two slots each,
 * six products and the three membership tiers.
 */
module Catalog {
  import opened Common
  import opened Types

  const GymCategories: seq<string> := ["Basic", "Premium", "Elite"]

  const MockGyms: seq<Gym> := [
    Gym("1", "FitZone Gym",
      "A modern gym with all the latest equipment for your fitness needs.",
      Location(37.7749, -122.4194, "123 Fitness Ave, San Francisco, CA"),
      50.0, 4.5,
      ["Cardio Equipment", "Weight Training", "Locker Rooms", "Showers"],
      ["Basic", "Premium"],
      [Slot("101", "1", "2025-06-01", "07:00", "08:30", 20, 8),
       Slot("102", "1", "2025-06-01", "09:00", "10:30", 20, 15)]),
    Gym("2", "PowerHouse Fitness",
      "Specializing in strength training with professional trainers.",
      Location(37.7833, -122.4167, "456 Muscle St, San Francisco, CA"),
      75.0, 4.8,
      ["Weight Training", "Personal Trainers", "Sauna", "Juice Bar"],
      ["Premium", "Elite"],
      [Slot("201", "2", "2025-06-01", "08:00", "09:30", 15, 10),
       Slot("202", "2", "2025-06-01", "10:00", "11:30", 15, 5)]),
    Gym("3", "Yoga Bliss Studio",
      "Find your inner peace with our expert yoga instructors.",
      Location(37.7750, -122.4183, "789 Zen Blvd, San Francisco, CA"),
      60.0, 4.6,
      ["Yoga Studios", "Meditation Rooms", "Locker Rooms", "Tea Bar"],
      ["Basic", "Premium", "Elite"],
      [Slot("301", "3", "2025-06-01", "07:00", "08:00", 25, 20),
       Slot("302", "3", "2025-06-01", "18:00", "19:00", 25, 12)])
  ]

  const MockProducts: seq<Product> := [
    Product("1", "Premium Protein Shake", "High-quality protein shake for muscle recovery.",
      8.99, "Supplements", Some("1"), true),
    Product("2", "Fitness Gloves", "Durable gym gloves for weight training.",
      24.99, "Accessories", None, true),
    Product("3", "Yoga Mat", "Non-slip yoga mat for all your yoga needs.",
      39.99, "Equipment", Some("3"), true),
    Product("4", "Energy Drink", "Pre-workout energy drink to boost your performance.",
      3.99, "Beverages", None, true),
    Product("5", "Fitness Tracker", "Track your fitness metrics with this sleek fitness band.",
      99.99, "Electronics", None, true),
    Product("6", "Gym Towel Set", "Set of 3 gym towels, perfect for your workout sessions.",
      19.99, "Accessories", Some("2"), true)
  ]

  /** Catalog ids are pairwise distinct. */
  predicate GymIdsDistinct(gyms: seq<Gym>) {
    forall i, j :: 0 <= i < j < |gyms| ==> gyms[i].id != gyms[j].id
  }

  predicate ProductIdsDistinct(products: seq<Product>) {
    forall i, j :: 0 <= i < j < |products| ==> products[i].id != products[j].id
  }

  lemma MockCatalogIdsDistinct()
    ensures GymIdsDistinct(MockGyms)
    ensures ProductIdsDistinct(MockProducts)
  {
    assert MockGyms[0].id == "1" && MockGyms[1].id == "2" && MockGyms[2].id == "3";
    assert MockProducts[0].id == "1" && MockProducts[1].id == "2" && MockProducts[2].id == "3";
    assert MockProducts[3].id == "4" && MockProducts[4].id == "5" && MockProducts[5].id == "6";
  }

  /** Distinct ids make distinct records. */
  lemma GymIdsDistinctNoDup(gyms: seq<Gym>)
    requires GymIdsDistinct(gyms)
    ensures NoDup(gyms)
  {
  }
}
