/** Foods as the menu and the cart see them. */
module Catalog {
  import opened Wrappers

  /** A food served by the backend: its `_id` (`mongoId`), an optional
      plain `id`, a name, a unit price in cents, a category and a rating in
      tenths of a star. Missing ids are `None`. */
  datatype Food = Food(
    mongoId: Option<string>,
    id: Option<string>,
    name: string,
    price: nat,
    category: string,
    rating: nat)

  /** Two entries of the bundled sample catalog, used as concrete values. */
  function VegetableBox(): Food {
    Food(Some("1"), None, "Organic Vegetable Box", 2499, "vegetables", 48)
  }

  function SaladGreens(): Food {
    Food(Some("7"), None, "Mixed Salad Greens", 499, "vegetables", 45)
  }
}
