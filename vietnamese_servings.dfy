/** The table of common Vietnamese serving sizes (`VietnameseServingSizes`)
    and its lookup with a 100 g default. */
module VietnameseServings {

  /** Grams of one customary serving, keyed by "food_unit". */
  const CommonServings: map<string, real> := map[
    "cơm_bát" := 150.0, "phở_tô" := 350.0, "bún_bát" := 200.0, "bánh_mì" := 80.0,
    "chuối_quả" := 120.0, "cam_quả" := 150.0, "táo_quả" := 180.0, "xoài_quả" := 200.0,
    "rau_dĩa" := 100.0, "cà_chua_quả" := 120.0,
    "nước_ly" := 250.0, "trà_ly" := 200.0, "cà_phê_ly" := 180.0,
    "thịt_miếng" := 100.0, "cá_khúc" := 150.0, "trứng_quả" := 60.0,
    "bánh_cái" := 50.0, "kẹo_viên" := 5.0]

  /** The grams used when a key is not in the table. */
  const DefaultServingGrams: real := 100.0

  /** `GetServingSize`: the table value of a known key, 100 g otherwise; the
      food type takes no part. */
  function GetServingSize(foodType: string, servingKey: string): (r: real)
    ensures servingKey in CommonServings ==> r == CommonServings[servingKey]
    ensures servingKey !in CommonServings ==> r == DefaultServingGrams
  {
    if servingKey in CommonServings then CommonServings[servingKey] else DefaultServingGrams
  }

  /** Every table entry lies between a candy (5 g) and a bowl of phở (350 g). */
  lemma CommonServingsBounds()
    ensures forall k :: k in CommonServings ==> 5.0 <= CommonServings[k] <= 350.0
  {
  }

  /** Every lookup lies in [5, 350] g, the default included, and both ends
      are reached. */
  lemma ServingSizeRange(foodType: string, servingKey: string)
    ensures 5.0 <= GetServingSize(foodType, servingKey) <= 350.0
    ensures GetServingSize(foodType, "kẹo_viên") == 5.0
    ensures GetServingSize(foodType, "phở_tô") == 350.0
  {
    CommonServingsBounds();
  }

  /** The food type never changes the result. */
  lemma ServingSizeIgnoresFoodType(foodType1: string, foodType2: string, servingKey: string)
    ensures GetServingSize(foodType1, servingKey) == GetServingSize(foodType2, servingKey)
  {
  }
}
