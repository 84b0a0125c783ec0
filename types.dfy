/** The record shapes shared by the storefront: catalog products, cart lines and chat messages. */
module Types {

  /** An optional field (`field?: T` in the record declarations). */
  datatype Option<+T> = None | Some(value: T)

  /** A catalog product. Prices are whole currency units; `salePrice` is absent when
      the product is not discounted. */
  datatype Product = Product(
    id: string,
    name: string,
    price: nat,
    salePrice: Option<nat>,
    category: string,
    image: string,
    description: string,
    tags: seq<string>)

  /** A cart line: the product's fields plus how many units are in the cart. */
  datatype CartItem = CartItem(product: Product, quantity: nat)
  {
    function Id(): string { product.id }
  }

  datatype Role = User | Model

  /** One entry of the chat transcript; `isError` is absent on ordinary turns. */
  datatype ChatMessage = ChatMessage(role: Role, text: string, isError: Option<bool>)
}
