/**
 * The records the product and supplier screens share. The source redeclares
 * the same `Supplier` and `Product` interfaces in Products.tsx,
 * ProductForm.tsx, SuppliersTable.tsx and AddSupplierModal.tsx; here each is
 * declared once. JavaScript numbers are `real`, record ids `int`.
 */
module Entities {

  datatype Supplier = Supplier(id: int, name: string, address: string, contactNo: string)

  datatype Product = Product(
    id: int,
    productCode: string,
    productName: string,
    barcode: string,
    quantity: real,
    pricePerUnit: real,
    totalAmount: real,
    salesRate: real,
    rackNo: string,
    manufacturingDate: string,
    expiryDate: string,
    supplier: Supplier,
    imageUrl: string)

  function SupplierId(s: Supplier): int {
    s.id
  }

  function ProductId(p: Product): int {
    p.id
  }
}
