/**
 * The client's record types. Prices, ratings and coordinates are exact
 * `real`s in place of IEEE doubles; image references are not modelled.
 */
module Types {
  import opened Common

  datatype Location = Location(lat: real, lng: real, address: string)

  datatype Slot = Slot(
    id: string,
    gymId: string,
    date: string,
    startTime: string,
    endTime: string,
    capacity: int,
    booked: int)

  datatype Gym = Gym(
    id: string,
    name: string,
    description: string,
    location: Location,
    price: real,
    rating: real,
    amenities: seq<string>,
    categories: seq<string>,
    slots: seq<Slot>)

  datatype BookingStatus = Confirmed | Cancelled | Completed

  datatype Booking = Booking(
    id: string,
    userId: string,
    gymId: string,
    slotId: string,
    date: string,
    status: BookingStatus)

  datatype Product = Product(
    id: string,
    name: string,
    description: string,
    price: real,
    category: string,
    gymId: Option<string>,
    inStock: bool)

  datatype CartItem = CartItem(productId: string, quantity: int, product: Product)

  datatype DeliveryOption = Pickup | Delivery

  datatype Cart = Cart(items: seq<CartItem>, deliveryOption: DeliveryOption, subtotal: real)

  datatype User = User(
    id: string,
    name: string,
    email: string,
    phone: string,
    homeLocation: Option<Location>,
    gymCategory: Option<string>,
    isVerified: bool)
}
