/**
 * The product records of the storefront's static catalogue (src/data/products.ts).
 * Ratings, original prices and discount labels are display-only and left out; prices are integers.
 */
module Catalogue {
  datatype Product = Product(
    id: int,
    name: string,
    image: string,
    weight: string,
    price: int,
    category: string,
    categoryCard: string)

  /** Two entries of the shipped catalogue (ids 1 and 9) that share a name. */
  const SoupPouch := Product(1, "2PM Classic Chicken Soup Base (Pouch)", "2pmChickenSoup.webp", "50g", 60, "For You", "Daily Grocery's")
  const SoupPouchAgain := Product(9, "2PM Classic Chicken Soup Base (Pouch)", "2pmChickenSoup.webp", "50g", 60, "For You", "Daily Grocery's")
}

/**
 * What the components ask their surroundings to do: the callbacks they invoke
 * (`onUpdateQuantity`, `onRemoveItem`, `onAddToCart`, `onClose`), the toast's timer reset
 * and router navigation, recorded as values in the order they are issued.
 */
module Events {
  import opened Catalogue

  datatype Effect =
    | UpdateQuantity(id: int, quantity: int)
    | RemoveItem(id: int)
    | AddToCart(product: Product)
    | AddWithQuantity(product: Product, quantity: int)
    | ReportLocation(location: string)
    | Close
    | ResetTimer
    | Navigate(path: string)
}
