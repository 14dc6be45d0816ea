/** The order data-transfer objects. Timestamps are clock readings, not their
    RFC 3339 text. */
module OrderDto {
  import opened ProductDto

  datatype CreateOrderRequest = CreateOrderRequest(customerId: string)
  datatype AddItemRequest = AddItemRequest(productId: string, quantity: QuantityRequest)
  datatype UpdateOrderStatusRequest = UpdateOrderStatusRequest(status: string)

  datatype OrderItemResponse = OrderItemResponse(id: string, product: ProductResponse,
                                                 quantity: QuantityResponse,
                                                 unitPrice: MoneyResponse, total: MoneyResponse)
  datatype OrderResponse = OrderResponse(id: string, customerId: string,
                                         items: seq<OrderItemResponse>, status: string,
                                         total: MoneyResponse, createdAt: nat, updatedAt: nat)
}
