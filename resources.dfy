/**
 * Drawable resource identifiers (`R.drawable.*`) used by the notifications and
 * the recent-orders widget. Resource loading is not modelled: an icon is only
 * the name of the drawable it was created from.
 */
module Resources {
  datatype Drawable =
    | IcLauncherForeground
    | IcNotification
    | Cupcake
    | ShoppingBag
    | DeliveryTruck
    | CheckCircle
    | Donut
    | Eclair
    | Froyo
    | Gingerbread
    | AddShoppingCart
}
